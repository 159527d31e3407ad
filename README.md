# imagej-usage, modelled in Dafny

ImageJ counts how often each identifiable, locatable object (a command, a
script, a legacy plugin) is executed. Once an hour it uploads the counts to
`http://usage.imagej.net/stats.php`, and it uploads once more at shutdown.
This project models that pipeline end to end:

- **The counter table** (`usage_service.dfy`, module `Usage`) models DefaultUsageService.
  - A table maps each identifier to a mutable usage record.
  - getUsage is get-or-create, keyed by identifier. It returns null for an object that is not both identifiable and locatable.
  - increment adds one to a record.
  - clearStats installs a fresh table, so a reference obtained from getStats earlier keeps its contents.
- **The report builder** (`json_builder.dfy`, module `Report`) models JSONBuilder.
  - It drops records without a location, without a file, without an update site, or whose site is not official.
  - It groups the records it keeps by update-site URL, in first-seen order.
  - Each kept record becomes one stat entry. The entry carries `id`, `count` and each optional value that is non-null.
  - The URL map and the root's `"sites"` array are kept in step.
- **The uploader** (`json_uploader.dfy`, module `Uploader`) models JSONUploader.
  - uploadNeeded is modelled as written, including its `jsonArray` quirk: the helper checks the child for the key but returns the root's `"sites"` array.
  - Once an upload is needed, the `user` is added, then the 19 system properties, each under its key with dots replaced by underscores.
  - The server's reply is accumulated line by line.
- **The upload service** (`upload_service.dfy`, module `UploadService`) models DefaultUsageUploadService.
  - The whole table is folded into one fresh builder.
  - The anonymiser input is the user-name bytes followed by the first interface's MAC bytes.
  - The server URL is fixed.
  - The hourly timer goes through a null / scheduled / cancelled lifecycle.
- **The server** (`stats_server.dfy`, module `Server`) models server/stats.php.
  - processStats answers one of three messages.
  - On success it files one event row, then one stats row per uploaded stat entry, in upload order.
  - Each entity (user, country, language, timezone, OS, Java profile, update site, object) is looked up get-or-create against its table.
  - The MySQL database is a value of ten tables, each a sequence of rows whose id is the position plus one. A `Database` class holds those tables and its methods append to them.

`json.dfy` holds the small JSON value the client and server share: an object is an association list in insertion order. `wrappers.dfy` holds `Option`.

Each imperative operation is a method proved against a specification function. Class methods state their whole new state through `View()`, `Value()` or `Snapshot()`. The properties of the pipeline are lemmas about those functions.

Collaborators outside the repository are parameters, never assumed bodies:

- `Report.Host`: FileUtils.urlToFile and UpdateService.getUpdateSite.
- `Uploader.Env`: System.getProperty, the HTTP transfer and the reply's JSON parse.
- The digest and the network-interface enumeration in `UploadService`.
- The body, the decoded report, whether the connection succeeded, the clock and the client address in `Server`.

## Model

| member | source | states |
|---|---|---|
| Json.Lookup | src/main/java/net/imagej/usage/JSONUploader.java:123 | a key is found exactly when some pair carries it, and the value found is one stored under it |
| Json.Get | src/main/java/net/imagej/usage/JSONUploader.java:123-124 | a value is found exactly when `has(key)` holds, which needs an object |
| Json.PutFieldLookup | src/main/java/net/imagej/usage/JSONBuilder.java:197 | after a put the key holds the new value and every other key keeps its value |
| Json.PutFieldKeys | src/main/java/net/imagej/usage/JSONBuilder.java:197 | a put appends a new key at the end and keeps the key order when the key exists |
| Json.PutFieldDistinct | src/main/java/net/imagej/usage/JSONBuilder.java:197 | a put never makes a key occur twice |
| Json.PutGet | src/main/java/net/imagej/usage/JSONUploader.java:82 | `json.put(key, v)` on an object: the key now yields v and no other key changes |
| Usage.Track | src/main/java/net/imagej/usage/DefaultUsageService.java:85-94 | getUsage's effect on the table, specified by Usage.TrackGetOrCreate |
| Usage.Bump | src/main/java/net/imagej/usage/DefaultUsageService.java:96-101 | increment's effect on the table, specified by Usage.BumpChangesOneRecord |
| Usage.BumpAll | src/main/java/net/imagej/usage/DefaultUsageService.java:96-101 | a sequence of increments, specified by Usage.BumpAllCounts and Usage.FreshTableCountsIncrements |
| Usage.TrackGetOrCreate | src/main/java/net/imagej/usage/DefaultUsageService.java:85-94 | an untrackable object leaves the table unchanged; a known identifier adds nothing; a new one adds exactly one record, with count 0 and the object's info; a second call adds nothing more; records stay keyed by identifier |
| Usage.BumpChangesOneRecord | src/main/java/net/imagej/usage/DefaultUsageService.java:96-101 | increment raises exactly its identifier's count by one and keeps the record's first-seen info; every other record is unchanged; an untrackable object changes nothing |
| Usage.BumpAllCounts | src/main/java/net/imagej/usage/DefaultUsageService.java:92-100 | after any sequence of increments, each count is its starting count plus the number of increments of that identifier, and an identifier is present exactly when it was present before or was incremented |
| Usage.FreshTableCountsIncrements | src/main/java/net/imagej/usage/DefaultUsageService.java:92-100 | n increments of one object on an empty table give it count n |
| Usage.UsageStats.constructor | src/test/java/net/imagej/usage/JSONBuilderTest.java:134 | a new record holds the object's info and count 0 |
| Usage.UsageStats.Increment | src/test/java/net/imagej/usage/JSONBuilderTest.java:135-137 | increment adds one to the count |
| Usage.StatsTable.constructor | src/main/java/net/imagej/usage/DefaultUsageService.java:67 | a new HashMap is empty |
| Usage.UsageService.constructor | src/main/java/net/imagej/usage/DefaultUsageService.java:67 | the service starts with a fresh empty table |
| Usage.UsageService.GetStats | src/main/java/net/imagej/usage/DefaultUsageService.java:71-74 | getStats returns the live table object, not a copy |
| Usage.UsageService.ClearStats | src/main/java/net/imagej/usage/DefaultUsageService.java:76-83 | clearStats installs a fresh empty table and does not modify the old table object |
| Usage.UsageService.GetUsage | src/main/java/net/imagej/usage/DefaultUsageService.java:85-94 | the table afterwards is Track of the table before; the result is null exactly for an untrackable object, and otherwise the table's record for the identifier; existing records are the same objects and new ones are fresh |
| Usage.UsageService.Increment | src/main/java/net/imagej/usage/DefaultUsageService.java:96-101 | the table afterwards is Bump of the table before; the same table object is kept |
| Usage.UsageService.OnModuleExecuted | src/main/java/net/imagej/usage/DefaultUsageService.java:105-109 | a module execution counts the module's info once |
| Usage.RecordWithCount | src/test/java/net/imagej/usage/JSONBuilderTest.java:127-139 | a fresh record incremented n times has count n and the given info |
| Usage.ClearThenIncrement | src/main/java/net/imagej/usage/DefaultUsageService.java:71-100 | a table obtained before clearStats keeps its contents; after clearStats one increment of x leaves a table holding only x, with count 1 |
| Usage.IncrementThroughLiveTable | src/main/java/net/imagej/usage/DefaultUsageService.java:71-74 | an increment is visible through the table getStats returned earlier |
| Report.GetFile | src/main/java/net/imagej/usage/JSONBuilder.java:147-162 | getFile, specified by Report.SiteOfFilters |
| Report.SiteOf | src/main/java/net/imagej/usage/JSONBuilder.java:134-139 | the site append files a record under, or none, specified by Report.SiteOfFilters |
| Report.StatJson | src/main/java/net/imagej/usage/JSONBuilder.java:179-188 | a record's stat entry, specified by Report.StatJsonShape and Report.StatJsonFields |
| Report.AppendSpec | src/main/java/net/imagej/usage/JSONBuilder.java:134-142 | append on the groups, specified by Report.AppendAddsOneStat and Report.AppendUnchangedIffDropped |
| Report.Build | src/main/java/net/imagej/usage/JSONBuilder.java:134-142 | append over a sequence of records, specified by Report.BuildIsGrouping, Report.BuildCountsAccepted and Report.BuildGroupsNonEmpty |
| Report.SiteOfFilters | src/main/java/net/imagej/usage/JSONBuilder.java:134-162 | append keeps a record exactly when its location is non-null, converts to a file, the file has an update site, and that site is official; the kept site is the one getUpdateSite reports |
| Report.PutIfPresentNew | src/main/java/net/imagej/usage/JSONBuilder.java:194-198 | `put` with a null value leaves the object alone, and with a value appends the new key |
| Report.StatJsonShape | src/main/java/net/imagej/usage/JSONBuilder.java:179-188 | a stat entry's fields are `id`, then each non-null optional value in the order name, label, description, version, then `count` |
| Report.StatJsonFields | src/main/java/net/imagej/usage/JSONBuilder.java:179-198 | a stat entry carries the record's identifier and count, and each optional key exactly when its value is non-null, with that value |
| Report.IndexOfUrl | src/main/java/net/imagej/usage/JSONBuilder.java:165-176 | the URL lookup finds a group with that URL, finds nothing exactly when no group has it, and with distinct URLs finds the only such group |
| Report.AppendAddsOneStat | src/main/java/net/imagej/usage/JSONBuilder.java:134-188 | a dropped record changes nothing; a kept record adds its stat at the end of its URL's group, or adds a new last group holding only that stat, named after its site; no other group changes; URLs stay distinct |
| Report.AppendUnchangedIffDropped | src/main/java/net/imagej/usage/JSONBuilder.java:134-142 | append leaves the groups unchanged exactly when it drops the record, and otherwise adds exactly one stat entry |
| Report.FoundThenAdd | src/main/java/net/imagej/usage/JSONBuilder.java:140-141 | jsonSite, then appendStats on the group it returns, is the one-stat addition to the record's URL group |
| Report.GroupedSnoc | src/main/java/net/imagej/usage/JSONBuilder.java:165-188 | grouping the kept stats by URL after one more kept stat equals adding that stat to the grouping before it |
| Report.BuildIsGrouping | src/main/java/net/imagej/usage/JSONBuilder.java:134-188 | for any input, the builder produces one group per distinct URL of a kept record, in first-seen order, named after the first site seen with that URL, holding exactly that URL's stat entries in input order |
| Report.BuildCountsAccepted | src/main/java/net/imagej/usage/JSONBuilder.java:134-188 | the groups have distinct URLs, and there are exactly as many stat entries as kept records |
| Report.BuildGroupsNonEmpty | src/main/java/net/imagej/usage/JSONBuilder.java:165-188 | no group the builder makes is empty |
| Report.LinkedAppend | src/main/java/net/imagej/usage/JSONBuilder.java:167-174 | registering a new site object under its URL and appending it to "sites" keeps the map and the array in step |
| Report.LinkedIndex | src/main/java/net/imagej/usage/JSONBuilder.java:166-175 | with the map and array in step, a URL is missing from the map exactly when no group has it, and otherwise the map's object is the array's object at the group's index |
| Report.SiteObject.constructor | src/main/java/net/imagej/usage/JSONBuilder.java:168-171 | a new site object has the site's name and URL and an empty "stats" array |
| Report.Builder.constructor | src/main/java/net/imagej/usage/JSONBuilder.java:121-131 | a fresh builder's root is `{"sites":[]}` and its URL map is empty |
| Report.Builder.MapMatchesArray | src/main/java/net/imagej/usage/JSONBuilder.java:118-119 | the URL map has as many entries as the "sites" array, its keys are the array's URLs, and these are distinct |
| Report.Builder.Append | src/main/java/net/imagej/usage/JSONBuilder.java:134-142 | append's new groups are the append specification applied to the old groups, and the map and array stay in step |
| Report.Builder.AddToSite | src/main/java/net/imagej/usage/JSONBuilder.java:140-141 | the kept path of append adds the record's stat entry to its URL's group |
| Report.Builder.JsonSite | src/main/java/net/imagej/usage/JSONBuilder.java:165-176 | jsonSite returns the site object at the URL's index, creates and appends one on first use, and otherwise changes nothing |
| Report.Builder.CreateSite | src/main/java/net/imagej/usage/JSONBuilder.java:167-174 | a new URL gets a fresh object, registered in the map and appended as the last group, with no stats |
| Report.Builder.AppendStats | src/main/java/net/imagej/usage/JSONBuilder.java:179-188 | appendStats adds the record's stat entry at the end of that site's "stats" array; no other site changes |
| Uploader.Underscored | src/main/java/net/imagej/usage/JSONUploader.java:117-120 | the key with each '.' replaced by '_', of the same length; specified by Uploader.UnderscoredChars and Uploader.UnderscoredInjective |
| Uploader.PutProperty | src/main/java/net/imagej/usage/JSONUploader.java:117-120 | addSystemProperty on the report, specified by Uploader.PutPropertiesSet and Uploader.PutPropertiesOther |
| Uploader.UnderscoredChars | src/main/java/net/imagej/usage/JSONUploader.java:119 | `replaceAll("\\.", "_")` maps every '.' to '_' and keeps every other character; no '.' remains |
| Uploader.UnderscoredInjective | src/main/java/net/imagej/usage/JSONUploader.java:119 | two distinct keys without '_' stay distinct after the replacement |
| Uploader.SystemPropertyKeysDistinct | src/main/java/net/imagej/usage/JSONUploader.java:55-61 | the 19 property keys become 19 distinct JSON keys, none of them "user" or "sites" |
| Uploader.PutPropertiesOther | src/main/java/net/imagej/usage/JSONUploader.java:111-120 | adding properties leaves every key they do not map to unchanged |
| Uploader.PutPropertiesSet | src/main/java/net/imagej/usage/JSONUploader.java:111-120 | a set property ends up under its underscored key, and an unset one leaves that key as it was |
| Uploader.JsonArrayIgnoresObject | src/main/java/net/imagej/usage/JSONUploader.java:122-127 | jsonArray as written ignores what it is asked for: any two objects that hold their keys get the same answer, and an array stored under the key itself is never returned unless it is the root's "sites" array |
| Uploader.UploadNeeded | src/main/java/net/imagej/usage/JSONUploader.java:96-109 | uploadNeeded as written, specified by Uploader.NoSitesNothingNeeded, Uploader.ScanSitesAsWritten, Uploader.UploadNeededOnReport and Uploader.QuirkOnEmptyStats |
| Uploader.NoSitesNothingNeeded | src/main/java/net/imagej/usage/JSONUploader.java:96-98 | without a "sites" key, or when "sites" is not an array, there is nothing to upload |
| Uploader.ScanSitesAsWritten | src/main/java/net/imagej/usage/JSONUploader.java:99-108 | the scan answers yes exactly when it reaches an object with a "stats" key, whatever that key holds, after stepping over objects without one; it throws exactly when it reaches a non-object first |
| Uploader.UploadNeededOnReport | src/main/java/net/imagej/usage/JSONUploader.java:96-109 | on a builder report, uploadNeeded answers yes exactly when there is a site, which is also the intended check |
| Uploader.UploadNeededOnBuild | src/main/java/net/imagej/usage/JSONUploader.java:96-109 | a report built from records needs uploading exactly when the builder kept at least one record |
| Uploader.QuirkOnEmptyStats | src/main/java/net/imagej/usage/JSONUploader.java:122-127 | a site whose "stats" array is empty still makes uploadNeeded answer yes, although the intended check says no |
| Uploader.ReadResponse | src/main/java/net/imagej/usage/JSONUploader.java:160-166 | the response text is every line read, each followed by "\n" |
| Uploader.ResponseRoundTrip | src/main/java/net/imagej/usage/JSONUploader.java:158-166 | splitting the accumulated response at its newlines gives back the lines read |
| Uploader.EnrichedContents | src/main/java/net/imagej/usage/JSONUploader.java:82-83 | the report sent carries the user, keeps its "sites", and holds each set property under its underscored key |
| Uploader.UploadSpec | src/main/java/net/imagej/usage/JSONUploader.java:80-91 | upload's report and outcome, specified by Uploader.UploadSpecCases and Uploader.EnrichedContents |
| Uploader.UploadSpecCases | src/main/java/net/imagej/usage/JSONUploader.java:80-91 | the report is left alone exactly when nothing is needed or the check throws; otherwise it is enriched with the user before sending, and a failed transfer ends in CannotUpload without rethrowing |
| Uploader.JsonUploader.constructor | src/main/java/net/imagej/usage/JSONUploader.java:68-71 | the uploader holds the given report |
| Uploader.JsonUploader.AddSystemProperty | src/main/java/net/imagej/usage/JSONUploader.java:117-120 | a set property is put under its underscored key; an unset one changes nothing |
| Uploader.JsonUploader.AddSystemProperties | src/main/java/net/imagej/usage/JSONUploader.java:111-115 | the 19 keys are added in their declared order |
| Uploader.JsonUploader.Upload | src/main/java/net/imagej/usage/JSONUploader.java:80-91 | the report and outcome afterwards are those of the upload specification |
| UploadService.MacAddress | src/main/java/net/imagej/usage/DefaultUsageUploadService.java:144-157 | getMacAddress, specified by UploadService.AnonymizedUserFirstInterface |
| UploadService.AnonymizerInput | src/main/java/net/imagej/usage/DefaultUsageUploadService.java:98-105 | the digest's input, specified by UploadService.AnonymizerInputSplits and UploadService.AnonymizerInputAmbiguous |
| UploadService.AnonymizedUser | src/main/java/net/imagej/usage/DefaultUsageUploadService.java:98-105 | getAnonymizedUser, specified by UploadService.AnonymizedUserFirstInterface |
| UploadService.AnonymizerInputSplits | src/main/java/net/imagej/usage/DefaultUsageUploadService.java:98-105 | for user names of one length, two digest inputs are equal exactly when the user names and the MAC bytes are |
| UploadService.AnonymizerInputAmbiguous | src/main/java/net/imagej/usage/DefaultUsageUploadService.java:98-105 | a user without MAC whose name continues with another user's MAC bytes gets that other user's digest input |
| UploadService.AnonymizedUserFirstInterface | src/main/java/net/imagej/usage/DefaultUsageUploadService.java:144-157 | only the first interface counts; no interface, a failed enumeration and a null first address all give the digest of the user name alone |
| UploadService.CompiledStatsCount | src/main/java/net/imagej/usage/DefaultUsageUploadService.java:164-170 | json(stats) produces one stat entry per table record the builder keeps, whatever order the HashMap iterates in |
| UploadService.AppendAll | src/main/java/net/imagej/usage/DefaultUsageUploadService.java:166-168 | appending every usage object to a fresh builder gives the builder specification of their records |
| UploadService.AppendNext | src/main/java/net/imagej/usage/DefaultUsageUploadService.java:167 | appending record i to the builder of the first i records gives the builder of the first i + 1 |
| UploadService.CompileJson | src/main/java/net/imagej/usage/DefaultUsageUploadService.java:164-170 | json(stats) is the root of the builder specification applied to the table's records in iteration order |
| UploadService.Timer.ScheduleAtFixedRate | src/main/java/net/imagej/usage/DefaultUsageUploadService.java:114-121 | the timer records the delay and period it is given |
| UploadService.Timer.Cancel | src/main/java/net/imagej/usage/DefaultUsageUploadService.java:126 | cancel marks the timer cancelled and keeps its schedule |
| UploadService.UsageUploadService.UploadUsageStatistics | src/main/java/net/imagej/usage/DefaultUsageUploadService.java:81-90 | the current table's report is uploaded for the anonymised user to the fixed server URL |
| UploadService.UsageUploadService.OnContextDisposing | src/main/java/net/imagej/usage/DefaultUsageUploadService.java:133-139 | at shutdown the current table is uploaded once more |
| UploadService.UsageUploadService.CompileStats | src/main/java/net/imagej/usage/DefaultUsageUploadService.java:83-86 | the report is json(stats) of the live table |
| UploadService.UsageUploadService.Send | src/main/java/net/imagej/usage/DefaultUsageUploadService.java:88-89 | the report goes to `http://usage.imagej.net/stats.php` through a new JSONUploader |
| UploadService.UsageUploadService.Initialize | src/main/java/net/imagej/usage/DefaultUsageUploadService.java:110-122 | initialize installs a fresh, uncancelled timer with delay and period both 3,600,000 ms |
| UploadService.UsageUploadService.Dispose | src/main/java/net/imagej/usage/DefaultUsageUploadService.java:125-128 | dispose cancels the timer if there is one and leaves none |
| UploadService.DisposeTwice | src/main/java/net/imagej/usage/DefaultUsageUploadService.java:125-128 | disposing twice is safe and leaves no timer |
| Server.Value | server/stats.php:361-363 | value, specified by Server.ValueDefaults |
| Server.ValueDefaults | server/stats.php:361-363 | value returns '' for a missing key and the stored value otherwise |
| Server.ElementsAreValues | server/stats.php:66-71 | foreach over an object visits one value per pair, each stored under some key, and reaches the value found under every key |
| Server.Select | server/stats.php:352-358 | select, at most the table's size, specified by Server.SelectFirst |
| Server.GetOrCreate | server/stats.php:141-152 | the lookup pattern, specified by Server.GetOrCreateSpec, Server.GetOrCreateIdempotent and Server.GetOrCreateGrows |
| Server.SelectFirst | server/stats.php:352-358 | select returns 0 exactly when no row matches, and otherwise the id of a matching row: the lowest-id one, as the model assumes |
| Server.GetOrCreateSpec | server/stats.php:141-152 | a lookup returns the id of a matching row, adds at most one row, changes no existing row, and adds its row exactly when nothing matched |
| Server.GetOrCreateIdempotent | server/stats.php:141-152 | looking the same key up twice returns the same id and adds nothing the second time |
| Server.NullKeyAlwaysInserts | server/stats.php:144-151 | a key holding a NULL matches no row under SQL equality, so each lookup of it inserts another row |
| Server.GetOrCreateGrows | server/stats.php:141-152 | a lookup only appends to its table |
| Server.GetOrCreateNames | server/stats.php:141-152 | whether the lookup finds a row or inserts its own, the returned id names a row holding the key in the key columns (including a NULL key, which forces the insert) |
| Server.NamesGrow | server/stats.php:141-152 | an id keeps naming the same row while rows are appended to its table |
| Server.LookupObjectFirstWins | server/stats.php:316-341 | an object already filed under the identifier and version is reused; its site, name, label and description stay those of the first insertion |
| Server.PurgeLegacyArg | server/stats.php:302-307 | the clean-up either keeps the identifier or cuts it to a shorter one that starts with `legacy:` and holds no '?' |
| Server.PurgeCutsPath | server/stats.php:302-307 | a legacy identifier whose argument after the first '?' holds a '/' (and no newline) is cut back to the part before that '?' |
| Server.PurgeKeepsOthers | server/stats.php:302-307 | a legacy argument without a '/' and an identifier without the `legacy:` prefix are kept as they are |
| Server.PurgeDiscarded | server/stats.php:297-331 | the preg_replace result is discarded: a stat whose identifier the clean-up would cut still files a new object under the identifier as uploaded |
| Server.InsertStatSpec | server/stats.php:297-313 | insertStat on the tables, specified by Server.InsertStatRow and Server.PurgeDiscarded |
| Server.InsertStatRow | server/stats.php:297-313 | insertStat adds exactly one stats row: this event's id, the id of an object row holding the stat's identifier and version, and the stat's count; besides, it only grows the objects table |
| Server.StatsSpecGrows | server/stats.php:68-70 | the inner loop only grows the objects and stats tables |
| Server.StatsSpecRows | server/stats.php:68-70 | the inner loop adds one stats row per stat entry, in order, each of this event, naming an object row that holds its entry's identifier and version, and carrying its count |
| Server.StatRowsGrow | server/stats.php:68-70 | stats rows keep naming their objects while the objects table grows |
| Server.SitesSpecRows | server/stats.php:66-71 | the outer loop only grows tables, adds no event, and adds one stats row per stat entry of every site, in upload order, each naming the object of its entry and carrying its count |
| Server.EventSpecRows | server/stats.php:56-64 | the six lookups only grow their tables; one event row is appended, whose id is returned, holding the timestamp, the address, and ids naming the user, country, language, timezone, OS and Java rows that hold the report's values |
| Server.EventRowFiled | server/stats.php:282-294 | insertEvent's row holds the timestamp, then the address, then the user, country, language, timezone, OS and Java ids in that order |
| Server.EventFiledGrow | server/stats.php:56-71 | the event row keeps naming its rows while the stats are filed after it |
| Server.ProcessSpec | server/stats.php:34-77 | processStats on the tables, specified by Server.ProcessSpecEffects, Server.ProcessSentReport and Server.ProcessBuiltReport |
| Server.ProcessSpecEffects | server/stats.php:34-77 | an empty body answers 'No statistics to process' and touches nothing; a failed connection answers 'Cannot connect to database' and touches nothing; otherwise exactly one event row is added, holding the timestamp, the address and ids naming the rows of the report's user, country, language, timezone, OS and Java profile, then one stats row per uploaded stat entry, in upload order, each of that event, naming an object row with the entry's identifier and version, and carrying its count; no existing row changes, and the answer is 'Statistics processed' |
| Server.SiteJsonsStats | server/stats.php:66-71 | the server visits the client's site groups in order and their stat entries in order |
| Server.ProcessSentReport | server/stats.php:34-77 | a report the client sent (root plus user and properties) is filed as one event naming the rows of its user and host profile, and one stats row per stat entry, in the order sent, each naming the object with the entry's identifier and version and carrying its count |
| Server.StatJsonColumns | server/stats.php:298-300 | a stat entry is filed with the record's identifier, count and version ('' when absent) |
| Server.ProcessBuiltReport | server/stats.php:63-71 | every record the client's builder keeps becomes exactly one stats row |
| Server.GetOrCreateRow | server/stats.php:144-151 | the select-then-insert returns the specified lookup result |
| Server.Database.constructor | server/stats.php:82-129 | the ten tables start empty |
| Server.Database.LookupUser | server/stats.php:141-152 | lookupUser is get-or-create on the `user` column |
| Server.Database.LookupCountry | server/stats.php:155-166 | lookupCountry is get-or-create on `user_country` |
| Server.Database.LookupLanguage | server/stats.php:169-180 | lookupLanguage is get-or-create on `user_language` |
| Server.Database.LookupTimezone | server/stats.php:183-194 | lookupTimezone is get-or-create on `user_timezone` |
| Server.Database.LookupOs | server/stats.php:197-212 | lookupOS is get-or-create on name, arch and version |
| Server.Database.LookupJava | server/stats.php:215-263 | lookupJava is get-or-create on the 13 Java columns in table order |
| Server.Database.LookupSite | server/stats.php:266-279 | lookupSite is get-or-create on name and url |
| Server.Database.InsertEvent | server/stats.php:282-294 | insertEvent appends the row of timestamp, address and six ids, and returns its id |
| Server.Database.InsertObject | server/stats.php:328-341 | insertObject appends identifier, site id, version, name, label and description, and returns the new id |
| Server.Database.LookupObject | server/stats.php:316-325 | lookupObject is get-or-create on identifier and version |
| Server.Database.InsertStat | server/stats.php:297-313 | insertStat looks up the object, then appends a row of event id, object id and count |
| Server.Database.ProcessStats | server/stats.php:34-77 | processStats leaves the database and answers as the processing specification says |
| Server.Database.ProcessReport | server/stats.php:56-71 | the connected path records the event, then processes every uploaded site |
| Server.Database.ProcessSites | server/stats.php:66-71 | the outer loop processes the sites in order |
| Server.Database.RecordEvent | server/stats.php:56-64 | the six lookups, then insertEvent with their ids |
| Server.Database.ProcessSite | server/stats.php:67-70 | one site: lookupSite, then each of its stats |
| Server.Database.InsertStats | server/stats.php:68-70 | the inner loop inserts the stat entries in order |

## Left out

- HTTP transport, request headers and the connection lifecycle are left out. The transfer is a parameter that yields the reply's lines or fails.
- Serialisation and parsing of JSON text are left out. org.json keeps object keys in a HashMap; the model keeps them in insertion order, so key order in the serialised report is not modelled.
- handleResponse is modelled only as a parse that yields the reply's "message" or fails. Its logging is left out, as is all other logging.
- readLine also ends a line at '\r'. The model splits only at '\n'.
- The digest (DigestUtils.bestBase64) and the string-to-bytes encoding of the user name are parameters. So are System.getProperty and the network-interface enumeration.
- UploadService.AnonymizerInput: a null MAC is taken to contribute no bytes. What `new ByteArray(null)` does is defined in org.scijava, which is not part of this model.
- A null `user.name` is not modelled: the user name is always a byte sequence.
- Threading is left out: the timer task's thread and its priority, `synchronized`, and the event bus. The handlers are methods that call what the source's handlers call.
- UploadService.Timer.ScheduleAtFixedRate: it records the schedule but does not run the task.
- Usage.UsageStats: the record class is not part of this model. It is modelled as its info and a count that starts at 0 and goes up by one on each increment.
- The long count in the source does not wrap around in the model: counts are unbounded naturals.
- SQL typing, collation and conversion are left out. Values are compared as decoded JSON, and a NULL never matches. The count is stored as the decoded value without the integer conversion of `bind_param('i')`.
- Auto-increment ids are taken to be dense and to start from empty tables. A failed INSERT, which yields a null id, is not modelled, and neither is a connection failure part-way through.
- The DDL in connectToDB and createTable, the config file, the clock, the client address and the printing of the JSON answer are left out. These are inputs or the returned message.
- Server.Value: PHP's behaviour on a string or number instead of an array (string offsets, warnings) is left out. Anything that is not an object yields ''.
- Duplicate keys in the uploaded JSON are not modelled. json_decode keeps the last one, while Lookup finds the first. Booleans and floats are not modelled either.
- Server.GetOrCreateIdempotent: lookups are idempotent only for keys without a NULL column, as Server.NullKeyAlwaysInserts shows.
- Concurrent requests to the server are not modelled: processStats handles one request at a time. The tables declare no UNIQUE key, so two requests that both find no row would both insert one, and the duplicate rows this makes are not modelled. Server.GetOrCreateSpec, Server.GetOrCreateIdempotent and Server.LookupObjectFirstWins hold for requests run one after another.
- Server.Select: the SQL has no ORDER BY, so MySQL may return any matching row; the model returns the lowest-id one. Run one request at a time, the model never creates two rows with the same non-NULL key.
- server/chart.php, the PrivacyOptions settings plugin and the UsageUploadService interface are left out. They hold no logic of the pipeline.
