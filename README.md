# GrimoireELK record shaping, modelled in Dafny

GrimoireELK feeds software-project data (Bugzilla bugs, mailing-list archives,
tweets and GitHub pull requests) into Elasticsearch. It runs in two stages. The
ocean stage stores the raw items. The enrich stage turns each raw item into a flat
record: identities resolved to `{username, name, email}`, project and URL fields
derived, and the records written in bulk batches.

This project models the record-shaping logic of that pipeline, with the data
already decoded:

- `results.dfy` (`Results`): the exceptions the code lets escape, as `Fault` values in a `Result`.
- `text.dfy` (`Text`): the Python string operations used (`strip`, `find`, `replace`, `split`, `join`, `lower`).
- `json.dfy` (`Json`): decoded documents (`Value`), dict access with Python's errors, copy-with-default, and the in-place `Document`.
- `chunking.dfy` (`Chunking`): splitting a list into fixed-size batches.
- `bulk.dfy` (`Bulk`): the `_bulk` batcher shared by the enrichers. A PUT is made before adding a record once the batch holds `max_items` records, and a trailing PUT is always made.
- `bugzilla_changes.dfy` (`BugzillaChanges`): the bug activity-table parser (`BugzillaChangesHTMLParser`), working on tables already extracted from the HTML.
- `bugzilla_listing.dfy` (`BugzillaListing`): the CSV bug-listing line parser, the listing and bug-info URL builders, the index name, and the id batching of `retrieve_issues`.
- `bugzilla_enrich.dfy` (`BugzillaEnrich`): Bugzilla identities, `enrich_issue` (on the issue in place), and the two bulk writers.
- `bugzilla_ocean.dfy` (`BugzillaOcean`): the ocean feeder's `_fix_item` unique id and its last-update delegation.
- `mbox_enrich.dfy` (`MboxEnrich`): mail identities (address de-obfuscation), the mail domain, the list project, the enriched message, and its bulk writer.
- `twitter_enrich.dfy` (`TwitterEnrich`): tweet identities, the hashtag project lookup, and the enriched tweet.
- `github_users.dfy` (`GithubUsers`): the GitHub loader's global user cache (a class), its accessors, and the enriched pull request.

Python is modelled explicitly:

- Dict lookups that raise become `KeyError` faults. `v[0]` raises what Python raises for each kind of value: `IndexError` on an empty list or str, `KeyError(0)` on a dict, `TypeError` on None, numbers and booleans. Indexing a str or a list with a str is a `TypeError`.
- `d.get(k)` returns None when the key is absent. `d.update(e)` is the map union `d + e`, where `e` wins.
- Truthiness follows Python's rules.
- `s[:-2]` and `s.split(sep, 1)` are written out.

Things the code calls but that are not part of this model become parameters:

- date parsing and formatting;
- `json.dumps` and `repr`;
- Sorting Hat's uuid lookup and `get_item_sh`;
- `get_grimoire_fields` and `add_project_levels`;
- `urlparse`;
- the GitHub API.

Code that updates state in place is modelled with classes, `modifies` clauses and methods:

- `Json.Document` for `enrich_issue` and `_fix_item`;
- `BugzillaListing.IdList` for the id list `retrieve_issues` pops from;
- `GithubUsers.UserCache` for the `users` dict.

Loops are modelled as methods with `while` loops, each proved against a specification function.

## Model

| member | source | states |
|---|---|---|
| BugzillaChanges.FieldName | utils/bugzilla2el.py:50-53 | `Status` becomes `status`, `Resolution` becomes `resolution`, every other field name is kept |
| BugzillaChanges.SanityzeWithDefaultMaps | utils/bugzilla2el.py:43-63 | with the class's empty status and resolution maps, sanityze_change only renames the field and strips both values |
| BugzillaChanges.SanityzeUnmapped | utils/bugzilla2el.py:52-63 | whatever the maps hold, an old value whose stripped text is not mapped comes out stripped |
| BugzillaChanges.FieldText | utils/bugzilla2el.py:109-122 | a field cell's text fails (IndexError) exactly when the cell has no content node |
| BugzillaChanges.FieldTextShape | utils/bugzilla2el.py:109-122 | the field text has no whitespace at either end; it has no newline when several nodes are joined by spaces or newlines are dropped; a single node of a continuation row is only stripped |
| BugzillaChanges.FirstText | utils/bugzilla2el.py:114-124 | `cols[i].contents[0].strip()` succeeds exactly when cell i exists and has a node, and is that node stripped |
| BugzillaChanges.RowStamp | utils/bugzilla2el.py:99-103 | a five-cell row's actor is its first cell stripped with every `&#64;` replaced by `@`; its date is the parsed second cell; it fails exactly when a cell is empty or the date does not parse |
| BugzillaChanges.RowValues | utils/bugzilla2el.py:109-126 | field, removed and added come from cells 2-4 of a five-cell row and cells 0-2 of any other row; the lookup fails exactly when one of those cells is missing or empty |
| BugzillaChanges.LastFullRow | utils/bugzilla2el.py:97-124 | the last five-cell row among rows 1..k, or None when there is none: the row whose actor and date row k carries |
| BugzillaChanges.ChosenTable | utils/bugzilla2el.py:82-91 | the table the search stops at is the first with a five-`th` header; when there is none it is the last table |
| BugzillaChanges.LastTableFallback | utils/bugzilla2el.py:83-96 | without any five-`th` header, `table` stays bound to the last table, and that table is parsed |
| BugzillaChanges.ParseRowFails | utils/bugzilla2el.py:97-126 | one pass of the row loop fails exactly on a row that does not parse |
| BugzillaChanges.ParseRowYields | utils/bugzilla2el.py:97-133 | a pass that succeeds yields row k's change and carries the stamp of the last five-cell row up to k |
| BugzillaChanges.ParseRowStep | utils/bugzilla2el.py:97-133 | the row loop's invariant is kept by each pass that succeeds |
| BugzillaChanges.ParseChanges | utils/bugzilla2el.py:75-135 | no tables give `[]`; reaching a table without rows is an AttributeError; otherwise there is one change per row after the header, in row order, each equal to that row's change; it fails exactly when some row does not parse |
| BugzillaChanges.NoChanges | utils/bugzilla2el.py:80-97 | the result is `[]` exactly when the chosen table has nothing but its header row (given tables) |
| BugzillaChanges.FullRowSetsStamp | utils/bugzilla2el.py:99-103 | a five-cell row sets the actor (with `&#64;` made `@`) and the date of its own change |
| BugzillaChanges.ContinuationCarries | utils/bugzilla2el.py:116-126 | a continuation row repeats the actor and date of the row before it |
| BugzillaListing.ListPieces | utils/bugzilla2el.py:329-331 | a listing line always cuts into at least one piece |
| BugzillaListing.Unquoted | utils/bugzilla2el.py:337-338 | a piece loses at most one trailing double quote, and nothing else |
| BugzillaListing.FilledColumns | utils/bugzilla2el.py:334-344 | a line fills between one and eight columns: one per piece, stopping at the eighth because the ninth piece raises and the exception is swallowed |
| BugzillaListing.ListFieldsDistinct | utils/bugzilla2el.py:326-327 | the eight column names are pairwise different |
| BugzillaListing.FieldsBeforeDiffer | utils/bugzilla2el.py:326-327 | no column before column j carries column j's name, so a later store never overwrites an earlier column |
| BugzillaListing.ColumnsKeys | utils/bugzilla2el.py:336-343 | storing the first n pieces gives exactly the first n column names as keys |
| BugzillaListing.ColumnsValues | utils/bugzilla2el.py:336-343 | column i holds piece i without its trailing quote, and changeddate holds its parsed date |
| BugzillaListing.ColumnsStep | utils/bugzilla2el.py:336-343 | one pass of the loop stores one more piece under the next column name |
| BugzillaListing.StoreColumns | utils/bugzilla2el.py:334-344 | the loop over the pieces returns the record of the first min(pieces, 8) columns |
| BugzillaListing.IssueFromListLine | utils/bugzilla2el.py:324-349 | get_issue_from_list_line returns the record of its line |
| BugzillaListing.ListRecordFields | utils/bugzilla2el.py:324-349 | the record's keys are exactly the filled column names, bug_id always and changeddate only when the line has all eight pieces, each holding its piece's value |
| BugzillaListing.SplitQuotedColumns | utils/bugzilla2el.py:331 | cutting a bare column followed by quoted plain columns at `,"` gives the bare column and each value with its closing quote |
| BugzillaListing.NoCollapsedComma | utils/bugzilla2el.py:329 | on a line of plain values the `,","` clean-up has nothing to replace |
| BugzillaListing.CommasQuoted | utils/bugzilla2el.py:329-331 | on a bare column followed by quoted columns every comma is followed by a quote and then by something other than a comma |
| BugzillaListing.CsvLinePieces | utils/bugzilla2el.py:329-331 | a CSV line of plain values cuts into the bare id and the other values each with its closing quote |
| BugzillaListing.ListLineRoundTrip | utils/bugzilla2el.py:324-349 | a line written from up to eight plain values reads back as those values under the column names in order, changeddate parsed when it parses |
| BugzillaListing.RetrieveIssuesIds | utils/bugzilla2el.py:439-452 | one pair per line after the header, in order, each the text before the line's first comma and its last comma-separated piece without quotes |
| BugzillaListing.LineRefOfCsvLine | utils/bugzilla2el.py:444-452 | for a line of plain values that pair is the line's id and its last value |
| BugzillaListing.CsvLineCommas | utils/bugzilla2el.py:446 | cutting a CSV line of plain values at its commas gives the bare id and the quoted values |
| BugzillaListing.QuotesStripped | utils/bugzilla2el.py:448 | `strip('"')` takes a quoted value without quotes back to the value |
| BugzillaListing.IssuesListUrl | utils/bugzilla2el.py:389-424 | a start date that does not parse is an error |
| BugzillaListing.ListUrlFromEpoch | utils/bugzilla2el.py:400-422 | without a start date the listing starts on 1970-01-01, after `&` when the base URL already has a query and after `?` otherwise, in the version's order |
| BugzillaListing.ListUrlFromDate | utils/bugzilla2el.py:392-424 | with a start date the day is the date bumped by one second: for versions 3.2.2 and 3.2.3 its part before the first space (a ValueError when there is none), for the others all of it with every space as `%20` |
| BugzillaListing.ListDayHasNoSpace | utils/bugzilla2el.py:405-422 | the day written into a listing URL never holds a space |
| BugzillaListing.InfoQuery | utils/bugzilla2el.py:460-469 | the query of a detail URL is one `id=` per id, in order, then `ctype=xml` and `excludefield=attachmentdata` |
| BugzillaListing.IssuesInfoUrl | utils/bugzilla2el.py:460-469 | the loop's URL is the base, `show_bug.cgi?` and the query parameters joined with `&` |
| BugzillaListing.IdParamsSnoc | utils/bugzilla2el.py:463-465 | each pass of the loop appends `id=<id>&` |
| BugzillaListing.IdItems | utils/bugzilla2el.py:463-465 | one `id=<id>` per id, in order |
| BugzillaListing.IdParamsJoin | utils/bugzilla2el.py:463-468 | writing `id=<id>&` per id in front of a joined tail is joining all the parameters with `&` |
| BugzillaListing.InfoQueryJoin | utils/bugzilla2el.py:461-468 | the text the loop builds is the parameters joined with `&` |
| BugzillaListing.InfoQuerySplits | utils/bugzilla2el.py:460-469 | when no id holds `&`, the detail query cuts back into its parameters |
| BugzillaListing.BugzillaIndex | utils/bugzilla2el.py:611-619 | the index has no `/` and no ASCII upper case letter; it fails with IndexError exactly when the domain has no `://` or the URL names a product without `product=` |
| BugzillaListing.BugzillaIndexValue | utils/bugzilla2el.py:611-619 | for the domain `<scheme>://<host>/` the index is the host, plus `-` and the product when the URL names one (the text after the first `product=` up to any further one), with `/` as `_`, lowered |
| BugzillaListing.IdList.constructor | utils/bugzilla2el.py:547-559 | the id list starts with the given pairs |
| BugzillaListing.RetrieveBatches | utils/bugzilla2el.py:547-559 | the list is reversed in place and popped into queries: the queries are the ids in consecutive runs of at most issues_per_query, oldest first, and the list ends empty |
| BugzillaListing.PopQuery | utils/bugzilla2el.py:556-559 | the inner loop pops from the reversed list the next ids in order, issues_per_query of them or all that remain, and leaves the rest reversed |
| BugzillaListing.ChunksHead | utils/bugzilla2el.py:555-559 | a query of issues_per_query ids taken from the front, or of all that remain, is the first batch, and the rest are the batches of what follows |
| BugzillaListing.QueriesCoverIds | utils/bugzilla2el.py:554-559 | the queries hold every id exactly once, in the listed order, each query between one and issues_per_query ids |
| BugzillaListing.NextCursorAsWritten | utils/bugzilla2el.py:592-605 | as written, when details are fetched the cursor read after retrieve_issues is an IndexError; otherwise it is the date of the last listed bug |
| BugzillaListing.NextCursor | utils/bugzilla2el.py:592-605 | the intended cursor is the date of the last listed bug, whatever the detail; an empty list is an IndexError |
| BugzillaEnrich.ShIdentityEmail | grimoire/elk/bugzilla.py:63-80 | the email of a Bugzilla identity is always None |
| BugzillaEnrich.ShIdentityFails | grimoire/elk/bugzilla.py:57-80 | get_sh_identity raises exactly when one of reporter, assigned_to, who and qa_contact is present and has no first entry with a `__text__` |
| BugzillaEnrich.ShIdentityUsername | grimoire/elk/bugzilla.py:57-80 | the username comes from the last present of reporter, assigned_to, who, Who and qa_contact, and is None when none is present |
| BugzillaEnrich.ShIdentityName | grimoire/elk/bugzilla.py:57-80 | the name is changed_by when present, otherwise that of the last list role whose first entry has a name, otherwise None |
| BugzillaEnrich.ReporterIdentity | grimoire/elk/bugzilla.py:57-68 | a reporter list alone gives its text as username, its name, and no email |
| BugzillaEnrich.ShortTextEvent | grimoire/elk/bugzilla.py:57-80 | a str event too short to contain a role name passes every `in` test and gives the all-None identity |
| BugzillaEnrich.RoleTextEvent | grimoire/elk/bugzilla.py:57-80 | a str event containing a role name raises TypeError when that role is indexed with a str |
| BugzillaEnrich.ListEvent | grimoire/elk/bugzilla.py:57-80 | a list event whose str items are all too short to be a role name (such as `["x"]`) passes every membership test and gives the all-None identity |
| BugzillaEnrich.EventIdentities | grimoire/elk/bugzilla.py:88-93 | on success one identity per event, in order, each that event's get_sh_identity (dict, str or list); a failure means some event's get_sh_identity raises |
| BugzillaEnrich.AppendIdentities | grimoire/elk/bugzilla.py:89-93 | the append loop extends the list with the identities of the events, or stops with the first event's exception |
| BugzillaEnrich.EventsFailFrom | grimoire/elk/bugzilla.py:89-93 | a failure among the first events is the failure of the whole loop |
| BugzillaEnrich.GetIdentities | grimoire/elk/bugzilla.py:83-105 | the appending code gives the identities of the activity events, then those of the comments or, without comments, of the first present of assigned_to, reporter and qa_contact |
| BugzillaEnrich.IdentitiesCount | grimoire/elk/bugzilla.py:83-105 | one identity per activity event and per comment; without comments exactly one more when one of the three roles is present, and none otherwise |
| BugzillaEnrich.IdentitiesPreferAssignee | grimoire/elk/bugzilla.py:94-96 | without activity or comments, a bug with an assignee gives exactly the assignee's identity |
| BugzillaEnrich.IssueUrlAsWrittenMalformed | grimoire/elk/bugzilla.py:109-125 | the URL as built has `/` where a URL has `:` after the scheme and runs the host into `show_bug.cgi`, so it differs from the bug's page |
| BugzillaEnrich.IssueUrlParts | grimoire/elk/bugzilla.py:109-125 | the corrected URL, kept beside the one the code builds, is the scheme, `://`, the host and `/`, then `show_bug.cgi?id=` and the id |
| BugzillaEnrich.EnrichIssue | grimoire/elk/bugzilla.py:107-137 | enrich_issue changes the item in place into the enriched item, stopping at the first exception with the fields written before it kept |
| BugzillaEnrich.PrepareIssue | grimoire/elk/bugzilla.py:113-127 | the dates, the extra fields, the comment count, the URL as the code builds it (`scheme + "//" + netloc + "show_bug.cgi?id=" + id`) and the time to the last update are written in turn, stopping at the first exception |
| BugzillaEnrich.PreparedKeeps | grimoire/elk/bugzilla.py:113-127 | the part before Sorting Hat changes no key but the five it writes |
| BugzillaEnrich.WithUuidsKeeps | grimoire/elk/bugzilla.py:129-135 | the Sorting Hat part changes no key but the two uuids |
| BugzillaEnrich.EnrichedIssueKeepsOthers | grimoire/elk/bugzilla.py:107-137 | whether it succeeds or not, enrich_issue adds or changes no key but its own |
| BugzillaEnrich.PreparedFields | grimoire/elk/bugzilla.py:113-127 | when that part succeeds the two dates are reformatted, the comment count is stored, the URL is `scheme + "//" + netloc + "show_bug.cgi?id="` and the bug's first id text, and the time is measured between the new dates |
| BugzillaEnrich.EnrichedIssueFields | grimoire/elk/bugzilla.py:107-137 | a successful enrichment holds the reformatted dates, the number of comments, the URL as the code builds it and the time between the two dates |
| BugzillaEnrich.EnrichedUrlNotPage | grimoire/elk/bugzilla.py:109-125 | so the URL of every successfully enriched bug differs from the bug's page `scheme://netloc/show_bug.cgi?id=<id>` |
| BugzillaEnrich.WithUuidsRoles | grimoire/elk/bugzilla.py:129-135 | the uuids are written for the roles the bug has, from that role's identity, and left as they were otherwise |
| BugzillaEnrich.EnrichedIssueUuids | grimoire/elk/bugzilla.py:107-137 | after a successful enrichment assigned_to_uuid and reporter_uuid are written exactly for the roles the bug names |
| BugzillaEnrich.EnrichedIssueWithoutComments | grimoire/elk/bugzilla.py:120-124 | a bug without comments raises KeyError at the count, leaving number_of_comments 0 with url and time_to_last_update_days None |
| BugzillaEnrich.ListEntries | grimoire/elk/bugzilla.py:162-173 | one bulk record per listed bug, in order, each its `bug_id` header and its JSON |
| BugzillaEnrich.IssuesListToEs | grimoire/elk/bugzilla.py:148-179 | issues_list_to_es writes the records of the listed bugs in bulk bodies of max_items, stopping at the first bug without `bug_id` |
| BugzillaEnrich.IssuesListAllWritten | grimoire/elk/bugzilla.py:148-179 | when every listed bug has a `bug_id` nothing fails and the PUTs are the bodies of the batches |
| BugzillaEnrich.EnrichedEntries | grimoire/elk/bugzilla.py:194-203 | one record per bug of the run |
| BugzillaEnrich.EnrichedEntriesAt | grimoire/elk/bugzilla.py:194-203 | record i is the record of bug i after its enrichment, or the exception the enrichment raised |
| BugzillaEnrich.EnrichedDocs | grimoire/elk/bugzilla.py:194-199 | one enriched bug per bug of the run |
| BugzillaEnrich.EnrichedDocsAt | grimoire/elk/bugzilla.py:194-199 | bug i of the run is bug i after enrich_issue |
| BugzillaEnrich.FieldsOf | grimoire/elk/bugzilla.py:194 | the fields of each document, in order |
| BugzillaEnrich.IssuesToEs | grimoire/elk/bugzilla.py:182-204 | each bug is enriched in place and written in bulk bodies of max_items; the loop stops at the first bug whose enrichment or `bug_id` fails, the earlier bugs enriched and the later ones untouched |
| BugzillaEnrich.EnrichItems | grimoire/elk/bugzilla.py:194-203 | the loop's records are those of the bugs up to the first failure, with those bugs enriched in place and the rest unchanged |
| BugzillaEnrich.EnrichRecord | grimoire/elk/bugzilla.py:199-202 | one pass enriches bug k in place and gives its record |
| Bulk.Payloads | grimoire/elk/bugzilla.py:194-204 | one body per batch, each the records' lines appended in turn |
| Bulk.Batches | grimoire/elk/bugzilla.py:194-204 | there is always at least one PUT, the last one after the loop |
| Bulk.BatchesSnoc | grimoire/elk/bugzilla.py:195-203 | one more record joins the pending body while it holds fewer than max_items records, and is added after a flush otherwise |
| Bulk.BatchesFlatten | grimoire/elk/bugzilla.py:194-204 | the PUTs carry every record exactly once, in input order |
| Bulk.BatchesBounded | grimoire/elk/bugzilla.py:194-204 | with max_items at least one no PUT carries more than max_items records, every PUT but the last carries exactly max_items, and with records no PUT is empty |
| Bulk.BatchesCount | grimoire/elk/bugzilla.py:194-204 | n records in batches of max_items make ceil(n / max_items) PUTs |
| Bulk.BatchesOfNothing | grimoire/elk/bugzilla.py:204 | no records still give one PUT, with an empty body |
| Bulk.BatchesAtThreshold | grimoire/elk/bugzilla.py:195-198 | max_items records go in one PUT, and one more record needs a second |
| Bulk.BatchesNonPositive | grimoire/elk/bugzilla.py:195-198 | with max_items at most zero an empty PUT comes first, then one PUT per record |
| Bulk.OneByOne | grimoire/elk/bugzilla.py:195-198 | batches of one hold each record alone, in order |
| Bulk.FirstFailure | grimoire/elk/bugzilla.py:194-203 | every record before the first failure succeeded, and the record there failed |
| Bulk.Values | grimoire/elk/bugzilla.py:200-202 | the records of successful items, in order |
| Bulk.WriteBulk | grimoire/elk/bugzilla.py:182-204 | the loop PUTs the bodies of the batches of the records written, and ends with the first exception from an item |
| Bulk.AddStep | grimoire/elk/bugzilla.py:195-203 | each pass over a record that did not fail keeps the pending body and the PUTs so far equal to the batches of the records written |
| Bulk.FailureOutcome | grimoire/elk/bugzilla.py:194-203 | at a failing item the PUTs are those made so far, including the flush the pass made before it |
| Bulk.SuccessOutcome | grimoire/elk/bugzilla.py:204 | without a failure the last PUT is the pending body |
| Bulk.FlushAll | grimoire/elk/bugzilla.py:204 | PUTting the pending body completes the bodies of all the batches |
| Bulk.AddRecord | grimoire/elk/bugzilla.py:195-203 | a pass adds its record to the pending body, after flushing it when it was full |
| Bulk.PayloadIsLines | grimoire/elk/bugzilla.py:201-202 | a body is its lines, each ended by a newline |
| Bulk.LinesOneLine | grimoire/elk/bugzilla.py:201-202 | when ids and documents have no newline neither has any line |
| Bulk.PayloadSplits | grimoire/elk/bugzilla.py:201-202 | when no id or document holds a newline, a body splits at its newlines back into its action and document lines and a final empty piece |
| Bulk.LinesOfRecords | grimoire/elk/bugzilla.py:201-202 | each record contributes its action line and then its document line |
| Bulk.Written | grimoire/elk/bugzilla.py:194-203 | the loop reaches at most all the records |
| Bulk.AllOkNoFailure | grimoire/elk/bugzilla.py:194-203 | without a failing record the loop runs to the end |
| Bulk.FirstFailureAt | grimoire/elk/bugzilla.py:194-203 | the loop stops at the first failing record |
| Bulk.BulkOutcomeStopsAtFailure | grimoire/elk/bugzilla.py:194-203 | what is PUT depends only on the records up to the first failure |
| Chunking.FlattenAppend | utils/bugzilla2el.py:576 | concatenating lists of queries concatenates their ids |
| Chunking.ChunksFlatten | utils/bugzilla2el.py:554-559 | the queries hold every id once, in order |
| Chunking.ChunksSizes | utils/bugzilla2el.py:558-559 | every query holds between one and issues_per_query ids, and all but the last exactly issues_per_query |
| Chunking.ChunksCount | utils/bugzilla2el.py:555-559 | n ids make ceil(n / issues_per_query) queries |
| Chunking.ChunksSnoc | utils/bugzilla2el.py:558-559 | one more id joins the last query while it has room, and opens a new query otherwise |
| MboxEnrich.Deobfuscate | grimoire/elk/mbox.py:93-96 | the pattern loop gives the header with each of ` at `, `_at_` and ` en ` handled in turn |
| MboxEnrich.UnmaskedIsReplace | grimoire/elk/mbox.py:95-96 | the `find` guard changes nothing: one step is `replace(p, '@')` |
| MboxEnrich.DeobfuscatedSteps | grimoire/elk/mbox.py:93-96 | the loop is the three patterns applied one after the other, in the listed order |
| MboxEnrich.DeobfuscatedReplaces | grimoire/elk/mbox.py:93-96 | de-obfuscation is the chain of the three `str.replace` calls |
| MboxEnrich.GetShIdentity | grimoire/elk/mbox.py:87-105 | the code's identity is the de-obfuscated header cut once at a space |
| MboxEnrich.ShIdentityShape | grimoire/elk/mbox.py:98-105 | no username; the email is the de-obfuscated header up to its first space and holds no space; there is a name exactly when the header has a space, and it is the rest with every bracket removed |
| MboxEnrich.DeobfuscatedAt | grimoire/elk/mbox.py:93-96 | `user at rest` becomes `user@rest` when nothing else looks like a pattern |
| MboxEnrich.UnbracketedWrapped | grimoire/elk/mbox.py:104 | removing the brackets around a name that has none inside gives the name |
| MboxEnrich.ShIdentityObfuscated | grimoire/elk/mbox.py:87-105 | a header `user at host (Name)` gives the address `user@host` and the name `Name` |
| MboxEnrich.ShIdentityExample | grimoire/elk/mbox.py:88-105 | the header quoted beside get_sh_identity gives `hwalsh@wikiledia.net` and `Heat Walsh` |
| MboxEnrich.Identities | grimoire/elk/mbox.py:77-85 | exactly one identity, that of the header, when `From` is present and non-empty, none otherwise; a non-str `From` has no `find` and fails |
| MboxEnrich.GetIdentities | grimoire/elk/mbox.py:77-85 | the role loop gives that list |
| MboxEnrich.DomainShape | grimoire/elk/mbox.py:121-126 | the domain is the text after the first `@` up to the next one, and None for an address without `@` |
| MboxEnrich.ItemShFields | grimoire/elk/mbox.py:107-127 | the sender's uuid and bot flag, and the domain exactly when the address is non-empty; a missing `From` is a KeyError and a non-str one fails |
| MboxEnrich.MlsPathInjective | grimoire/elk/mbox.py:133-136 | two lists never share an archive path |
| MboxEnrich.ItemProjectCases | grimoire/elk/mbox.py:129-143 | the project registered under `mls` for the list's archive path, None when either lookup misses; a list that is not a str is a TypeError |
| MboxEnrich.GetRichItem | grimoire/elk/mbox.py:145-168 | the field-by-field code gives the enriched message |
| MboxEnrich.RichItemFails | grimoire/elk/mbox.py:145-168 | the enrichment fails exactly when the date, the list, the enabled Sorting Hat part or the project part does; without `metadata__updated_on` it is a KeyError |
| MboxEnrich.BaseKeysApart | grimoire/elk/mbox.py:148-166 | the copied headers, the date and the list are none of the keys the updates add |
| MboxEnrich.BaseItemKeys | grimoire/elk/mbox.py:146-160 | before the updates the message has the six copied headers, `email_date` and `list`, and nothing else |
| MboxEnrich.BaseItemFields | grimoire/elk/mbox.py:148-160 | every copied header is there, None when the message lacks it, with the date and the list |
| MboxEnrich.CopiedThenSet | grimoire/elk/mbox.py:149-160 | setting two keys that are not copied keeps the copied headers |
| MboxEnrich.BaseItemLacksAdded | grimoire/elk/mbox.py:146-160 | no key the updates add is in the message before them |
| MboxEnrich.WithShKeeps | grimoire/elk/mbox.py:162-163 | the Sorting Hat update keeps every other key, and adds `from_uuid` exactly when it runs |
| MboxEnrich.WithProjectKeeps | grimoire/elk/mbox.py:165-166 | the project update keeps every other key, and adds `project` exactly when there is a map |
| MboxEnrich.RichItemKeeps | grimoire/elk/mbox.py:162-166 | the optional updates keep every key of the base message they do not set |
| MboxEnrich.BaseSurvives | grimoire/elk/mbox.py:148-166 | the headers, date and list of the base message survive the updates |
| MboxEnrich.RichItemFields | grimoire/elk/mbox.py:145-168 | the enriched message holds the copied headers, the parsed date and the list, the sender's uuid exactly when the Sorting Hat is on, and the project exactly when there is a map |
| MboxEnrich.MailEntryId | grimoire/elk/mbox.py:185-189 | the `_id` of a message is its own `ocean-unique-id`, or `None` when it has none |
| MboxEnrich.MailEntries | grimoire/elk/mbox.py:179-190 | one record per message |
| MboxEnrich.MailEntriesAt | grimoire/elk/mbox.py:185-189 | record i is the record of message i |
| MboxEnrich.MailRecord | grimoire/elk/mbox.py:185-189 | one turn of the loop gives message k's record |
| MboxEnrich.MailRecords | grimoire/elk/mbox.py:179-190 | the loop makes the records up to the first message whose enrichment raises, that one included |
| MboxEnrich.EnrichItems | grimoire/elk/mbox.py:170-197 | enrich_items PUTs the enriched messages in bulk bodies of max_items, then the trailing body, and ends with the first exception |
| MboxEnrich.EnrichItemsAllWritten | grimoire/elk/mbox.py:170-197 | when every message enriches nothing fails, every batch is PUT and there is at least one PUT |
| TwitterEnrich.ShIdentity | grimoire_elk/elk/twitter.py:70-82 | without the identity field the identity is all None; with it the username and name are that dict's `screen_name` and `name`, the email None, and the lookup fails exactly when one of the two does |
| TwitterEnrich.ShIdentityDefault | grimoire_elk/elk/twitter.py:76-77 | with no field given the identity is read from `user` |
| TwitterEnrich.Identities | grimoire_elk/elk/twitter.py:84-91 | exactly one identity, the tweet's author's, failing exactly when that lookup does |
| TwitterEnrich.FirstProjectAt | grimoire_elk/elk/twitter.py:104-107 | the project is that of the first hashtag found in the connector's map |
| TwitterEnrich.FirstProjectNone | grimoire_elk/elk/twitter.py:104-110 | when no hashtag is in the map no project is found |
| TwitterEnrich.GetItemProject | grimoire_elk/elk/twitter.py:93-116 | the loop with its break gives the project fields of the enriched tweet |
| TwitterEnrich.ItemProjectFound | grimoire_elk/elk/twitter.py:93-116 | the first hashtag in the map with a project gives that project, with its levels |
| TwitterEnrich.ItemProjectDefault | grimoire_elk/elk/twitter.py:109-116 | with no hashtags or none in the map the project is DEFAULT_PROJECT, with its levels |
| TwitterEnrich.ItemProjectNoConnector | grimoire_elk/elk/twitter.py:102-105 | with hashtags but no entry for the connector in the map the lookup is a KeyError |
| TwitterEnrich.TagTexts | grimoire_elk/elk/twitter.py:160-162 | on success one text per hashtag, in order, each the hashtag's `text`; a failure means some hashtag has none |
| TwitterEnrich.HashtagTexts | grimoire_elk/elk/twitter.py:160-162 | the append loop gives those texts |
| TwitterEnrich.EarlierFailure | grimoire_elk/elk/twitter.py:161-162 | a failure among the first hashtags is the failure of the whole loop |
| TwitterEnrich.CopyTop | grimoire_elk/elk/twitter.py:127-145 | the copy loops give the tweet's copied fields, the parsed date and the two renamed fields |
| TwitterEnrich.CopyUser | grimoire_elk/elk/twitter.py:148-155 | the copy loop gives the author's fields under `user_` for a dict author, all None for a str or list author in which `in` finds no field, and TypeError otherwise |
| TwitterEnrich.NonDictAuthorBase | grimoire_elk/elk/twitter.py:148-168 | an author that is not a dict always makes get_rich_item fail, by TypeError once the author loop, the hashtags and `retweeted` have passed |
| TwitterEnrich.AddText | grimoire_elk/elk/twitter.py:157-158 | `text_analyzed` is added exactly when the tweet has a text |
| TwitterEnrich.GetHashtags | grimoire_elk/elk/twitter.py:160-162 | the hashtag loop reads `entities`, then `hashtags`, then each text |
| TwitterEnrich.BuildBase | grimoire_elk/elk/twitter.py:120-169 | the field-by-field code gives the base enriched tweet |
| TwitterEnrich.GetRichItem | grimoire_elk/elk/twitter.py:119-179 | get_rich_item gives the enriched tweet, with the optional Sorting Hat, grimoire and project updates in that order, and the `@metadata` decorator's fields added last |
| TwitterEnrich.UserKeyHead | grimoire_elk/elk/twitter.py:153 | every key of the author copy begins with `u` |
| TwitterEnrich.TweetFieldsApart | grimoire_elk/elk/twitter.py:127-129 | no copied tweet field begins with `u` or is a renamed or derived key |
| TwitterEnrich.RenamedApart | grimoire_elk/elk/twitter.py:136-145 | the date and the renamed keys neither begin with `u` nor are derived keys |
| TwitterEnrich.DerivedApart | grimoire_elk/elk/twitter.py:157-169 | no derived key is an author key |
| TwitterEnrich.CopiedThenRenamed | grimoire_elk/elk/twitter.py:130-145 | after the copy, the date and the renames the keys are the copied fields and the three set keys, each with its value |
| TwitterEnrich.TopFieldsShape | grimoire_elk/elk/twitter.py:127-145 | the tweet part holds each copied field (None when missing), the parsed date, `timestamp` and `version`, and nothing else |
| TwitterEnrich.UserKeysApart | grimoire_elk/elk/twitter.py:148-155 | the author copy overwrites no key of the tweet part |
| TwitterEnrich.DerivedKeeps | grimoire_elk/elk/twitter.py:157-169 | the derived fields keep every other key and hold the text, the hashtags, the retweet flag and the two URLs |
| TwitterEnrich.AssembledKeeps | grimoire_elk/elk/twitter.py:127-169 | the derived fields keep both copied parts |
| TwitterEnrich.TweetBaseFields | grimoire_elk/elk/twitter.py:127-166 | a successful base holds every copied tweet field, the parsed date, `timestamp`, `version`, every author field under `user_`, `text_analyzed` exactly when there is a text, the hashtag texts and `retweeted` 1 or 0 by the tweet's flag |
| TwitterEnrich.TweetBaseUrls | grimoire_elk/elk/twitter.py:168-169 | the tweet URL is `http://twitter.com/<screen_name>/status/<id_str>` and the author URL `http://twitter.com/<screen_name>` |
| TwitterEnrich.TweetBaseFails | grimoire_elk/elk/twitter.py:120-169 | the base fails exactly when the date, the author, the hashtags, `retweeted`, the screen name or `id_str` is missing or of the wrong kind |
| TwitterEnrich.TextAuthorWithoutEntities | grimoire_elk/elk/twitter.py:148-161 | a str author too short to hold a field name passes the author loop, so a tweet without `entities` fails with KeyError there |
| TwitterEnrich.TextAuthorNamingField | grimoire_elk/elk/twitter.py:148-155 | a str author containing an author field name fails with TypeError in the author loop |
| TwitterEnrich.RichTweetKeeps | grimoire_elk/elk/twitter.py:119-177 | each later update wins over the earlier ones: the decorator's fields, then the project fields, then the grimoire fields, then the Sorting Hat fields, then the base; each keeps its value where no later one sets the key |
| GithubUsers.Filled | utils/github2el.py:80-81 | after a lookup the login is cached, with its stored value on a miss and the old one on a hit, and every other entry is kept |
| GithubUsers.OrgLogins | utils/github2el.py:99-100 | on success one login per organisation, in order, each that organisation's str `login`; a failure means some organisation has none |
| GithubUsers.OrgLoginsEarlierFailure | utils/github2el.py:99-100 | a failure among the first organisations is the failure of the whole loop |
| GithubUsers.TerminatedJoin | utils/github2el.py:97-100 | appending each login and `;;` in turn gives the logins joined with `;;`, plus a final `;;` |
| GithubUsers.JoinOrgLogins | utils/github2el.py:96-101 | the loop and the final cut give the logins joined with `;;`, and fail exactly when a login is missing |
| GithubUsers.OrgJoinSplits | utils/github2el.py:96-101 | when no login holds `;`, cutting the organisation text at `;;` gives back the logins |
| GithubUsers.OrgJoinEmpty | utils/github2el.py:96-101 | a user without organisations has the empty text as organisation |
| GithubUsers.PersonFields | utils/github2el.py:121-124 | for a str login: the name from a fresh lookup, or None when the login was already cached; the email None, because the name lookup has cached the login; the organisation from the cached user's organisations |
| GithubUsers.RichPull | utils/github2el.py:116-141 | a rich pull needs a `user` with a str login and an `assignee` which, when not None, has a str login |
| GithubUsers.UserCache.constructor | utils/github2el.py:53-74 | the cache starts with the given users and the given API answers |
| GithubUsers.UserCache.GetGithubUser | utils/github2el.py:53-74 | None gives None; a str login is fetched and stored, with its organisations when the answer is a dict, which is then what is returned; any other answer stores the raw value and fails |
| GithubUsers.UserCache.UserAttribute | utils/github2el.py:77-85 | a cached login gives None and leaves the cache as it is; a new str login is fetched, cached, and gives the fetched user's attribute |
| GithubUsers.UserCache.GetUserEmail | utils/github2el.py:77-85 | a cached login gives None; a new one gives the fetched user's email, or None, and is cached |
| GithubUsers.UserCache.GetUserName | utils/github2el.py:105-113 | a cached login gives None; a new one gives the fetched user's name, or None, and is cached |
| GithubUsers.UserCache.GetUserOrg | utils/github2el.py:88-103 | a new login gives its `company` when it has one; otherwise, and always for a cached login, its organisation logins joined with `;;`; the login ends up cached |
| GithubUsers.UserCache.UserFields | utils/github2el.py:121-124 | the three lookups on one login give its name, email and organisation as the pure model states, and cache the login |
| GithubUsers.UserCache.GetAssigneePart | utils/github2el.py:125-134 | a None assignee gives four None fields and leaves the cache as it is; an assignee with a login caches it and gives its fields |
| GithubUsers.UserCache.GetRichPull | utils/github2el.py:116-141 | getRichPull's record is that of the pure model, over the cache before the call; on success the cache holds the author and the assignee |
| GithubUsers.Required | utils/github2el.py:135-139 | the copied pull fields are exactly the listed ones with the pull's values, and copying fails exactly when one is missing |
| GithubUsers.NameThenHit | utils/github2el.py:108-109 | after a lookup the login is cached, so a second lookup changes nothing |
| GithubUsers.PartKeysApart | utils/github2el.py:118-139 | the author, assignee and pull keys are pairwise distinct |
| GithubUsers.AuthorPartKeys | utils/github2el.py:118-124 | the author part has exactly its six keys |
| GithubUsers.AssigneePartKeys | utils/github2el.py:125-134 | both branches of the assignee part set exactly the four assignee keys |
| GithubUsers.RichPullParts | utils/github2el.py:116-141 | the rich pull holds the author part, the assignee part and the copied fields |
| GithubUsers.RichPullCopies | utils/github2el.py:118-139 | the rich pull holds the pull's id, its time to close, and each of title, state, created_at, updated_at and closed_at from the pull |
| GithubUsers.RichPullAuthor | utils/github2el.py:121-124 | the author's login from the pull, the name as getUserName gives it, the email None and the organisation of the cached author |
| GithubUsers.RichPullNoAssignee | utils/github2el.py:130-134 | without an assignee the four assignee fields are None |
| GithubUsers.RichPullAssignee | utils/github2el.py:125-129 | with an assignee its login from the pull, the email None and the organisation of the cached assignee |
| BugzillaOcean.UniqueId | grimoire/ocean/bugzilla.py:47-49 | the id is the first bug id's text, `_` and the origin; it fails exactly when one of those lookups does |
| BugzillaOcean.FixedKeeps | grimoire/ocean/bugzilla.py:47-49 | _fix_item adds the unique id under `ocean-unique-id` and changes no other key |
| BugzillaOcean.UniqueIdIgnoresOwnKey | grimoire/ocean/bugzilla.py:47-49 | the unique id is read from keys _fix_item does not write |
| BugzillaOcean.FixedIdempotent | grimoire/ocean/bugzilla.py:47-49 | fixing a fixed item gives the same item |
| BugzillaOcean.UniqueIdExample | grimoire/ocean/bugzilla.py:47-49 | bug 42 fed from `https://bz` has the id `42_https://bz` |
| BugzillaOcean.FixItem | grimoire/ocean/bugzilla.py:47-49 | _fix_item changes the item in place to the fixed item, and on an exception leaves it unchanged |
| BugzillaOcean.GetFieldUniqueId | grimoire/ocean/bugzilla.py:33-34 | the key named is the one _fix_item writes the unique id under |
| BugzillaOcean.LastUpdate | grimoire/ocean/bugzilla.py:36-45 | the store's last date for the field and filter is passed on unchanged, None included |
| Text.Strip | utils/bugzilla2el.py:54-55 | `str.strip()` leaves no white space at either end and never lengthens the text |
| Text.StripIdempotent | utils/bugzilla2el.py:54-55 | stripping twice is stripping once |
| Text.StripChar | utils/bugzilla2el.py:448 | `strip('"')` leaves no quote at either end and never lengthens the text |
| Text.Find | utils/bugzilla2el.py:412 | `index` finds the first occurrence, and none exactly when there is none |
| Text.Split | utils/bugzilla2el.py:446 | `str.split(sep)` always gives at least one piece |
| Text.SplitJoin | utils/bugzilla2el.py:446 | joining the pieces of a split with its separator gives the text back |
| Text.JoinSplit | utils/bugzilla2el.py:446 | splitting a join at a one-character separator found in no part gives back the parts |
| Text.JoinSplitText | utils/github2el.py:100-101 | splitting a join at a separator whose first character is in no part gives back the parts |
| Text.SplitOnce | grimoire/elk/mbox.py:98 | `split(" ", 1)` gives one piece, the text, exactly when the separator is absent, and otherwise the text before its first occurrence and the rest |
| Text.ReplaceAbsent | grimoire/elk/mbox.py:95-96 | replacing an absent pattern changes nothing |
| Text.ReplaceCharGone | utils/bugzilla2el.py:619 | replacing every `/` leaves none |
| Text.Lower | utils/bugzilla2el.py:619 | `lower()` on ASCII letters only: it keeps the length, leaves no `A`-`Z` and changes no other character |
| Json.Copied | grimoire/elk/mbox.py:149-153 | the copy has exactly the listed fields, each with the source's value or None |
| Json.CopyFields | grimoire/elk/mbox.py:149-153 | the copy loop gives that copy |
| Json.CopyFieldsFrom | grimoire_elk/elk/twitter.py:151-155 | the copy loop over `f in v` gives the copy for a dict, all None for a str or list in which no field is found, and TypeError when one is found there or `v` is of another kind |

Three behaviours of the code worth noting, all modelled as written:

- `parse_changes` does not skip a malformed change-log row: the row's exception escapes (utils/bugzilla2el.py:97-133), and `BugzillaChanges.ParseChanges` returns that fault.
- The enrichers do not turn most missing fields into None: `long_desc` in `enrich_issue`, `user` and `retweeted` in the Twitter `get_rich_item` raise `KeyError`, and the model returns that fault.
- `parse_changes` returns `[]` when the chosen table has nothing but its header row, as well as when there are no tables (`BugzillaChanges.NoChanges`).

## Left out

- HTTP and Elasticsearch I/O (`requests.get` and `requests.put`, `init_es`, the `*_raw_to_es` writers, the per-line `issues_list_to_es` of utils/bugzilla2el.py, `usersToES` and `usersFromES`, GitHub pagination). A PUT is modelled as appending its body to the returned sequence, and a fetched response as a parameter (the listing text, the `Api` answers).
- `get_changes` (a cache lookup or a fetch, then the parser) and `get_issue_proccesed` (XML element walking). The `get_issues` driver loop is modelled only for the cursor it reads after each listing (`BugzillaListing.NextCursorAsWritten`).
- Date parsing and formatting (`dateutil.parser.parse`, `isoformat`, `strftime`, the one-second `timedelta`) are function parameters returning `None` where the code would raise.
- Float day arithmetic (`getTimeToCloseDays`, `get_time_diff_days`, `get_time_to_last_update_days`) is a parameter.
- BeautifulSoup work (comment removal, tag flattening, `findAll`): the parser takes tables already extracted as rows of cells of content strings.
- `urlparse`, `urljoin` and `get_domain` are outside the model; their results (scheme, netloc, domain) are parameters.
- Sorting Hat (`get_uuid`, `api.unique_identities`, the Twitter `get_item_sh`), `get_grimoire_fields`, `add_project_levels`, the fields the `@metadata` decorator adds (a `Config` parameter applied last) and `json.dumps`/`repr` are parameters. `DEFAULT_PROJECT` is a configuration value.
- The `UnicodeEncodeError` fallback to ISO-8859-1 in the mbox `enrich_items` is not modelled: the trailing PUT always succeeds.
- Logging, `print`, argparse, the Elasticsearch mapping strings (`get_elastic_mappings`) and `__main__` setup.
- Iterating a value that is not a list (Python would iterate a dict's keys or a str's characters) is modelled as a `TypeError`. This applies to the event, comment, hashtag and organisation loops. The `in` tests are modelled for every kind of value (`Json.KeyIn`).
- BugzillaListing.RetrieveBatches: requires at least one id per query. The code uses the constant 200, and with zero it would loop forever.
- BugzillaListing.NextCursorAsWritten: requires at least one id per query, for the same reason.
- BugzillaListing.NextCursor: requires at least one id per query, for the same reason.
- Text.Lower: lowers ASCII letters only. Python's `str.lower()` also lowers every other cased letter (`Ö` to `ö`) and can lengthen the text (`İ` becomes two code points); Unicode case tables are not part of this model.
- BugzillaListing.BugzillaIndex: lowers ASCII letters only, through `Text.Lower`. A host or product with non-ASCII capitals (`product=Öffentlich`) keeps them in the model, where Python lowers them.
- BugzillaListing.BugzillaIndexValue: lowers ASCII letters only, for the same reason.
- GithubUsers.UserCache.GetRichPull: does not state the cache after a failed call. The user lookups it had completed by then have already filled the cache.
- GithubUsers.RichPull: its own contract states only when it succeeds. The record's contents are stated by `RichPullCopies`, `RichPullAuthor`, `RichPullAssignee` and `RichPullNoAssignee`.
- BugzillaListing.IssuesListUrl: its own contract states only the failure on an unparsable date. The URLs are stated by `ListUrlFromEpoch` and `ListUrlFromDate`.

## Findings

| source | as written | input that shows it | evidently intended | confidence | as-written member | corrected member |
|---|---|---|---|---|---|---|
| grimoire/elk/bugzilla.py:109-125 | the bug URL is `u.scheme + "//" + u.netloc + "show_bug.cgi?id=" + id` | scheme `https`, netloc `bugzilla.example.org`, id `1` give `https//bugzilla.example.orgshow_bug.cgi?id=1` | `https://bugzilla.example.org/show_bug.cgi?id=1` | not executed | BugzillaEnrich.IssueUrlAsWrittenMalformed | BugzillaEnrich.IssueUrlParts |
| utils/bugzilla2el.py:592-605 | with `--detail issue` or `change`, `retrieve_issues(ids)` empties `ids` (reverse, then pop until empty), then `ids[len(ids)-1]` is read | ids `[["1", "2016-01-01"]]` with detail `issue`: `ids[-1]` on the emptied list raises IndexError | the cursor is the change date of the last listed bug | not executed | BugzillaListing.NextCursorAsWritten | BugzillaListing.NextCursor |

The enrichment members store the URL as the code builds it
(`BugzillaEnrich.PreparedFields`, `BugzillaEnrich.EnrichedUrlNotPage`). The
corrected URL, `BugzillaEnrich.IssueUrl`, is defined beside it, and no enrichment
member uses it.
