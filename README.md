# strava-backup core, modelled in Dafny

This project models the logic of strava-backup (since renamed mykrok). The tool keeps a local backup
of an athlete's Strava activities: one session directory per activity, with `info.json`, photos,
`sessions.tsv` summaries, a sync-state file and a FitTrackee export ledger. It also migrates the
on-disk layout between versions and serves a browser and a map over the backup.

The modules follow the source files:

- `Util` (util.dfy): Python string operations (`in`, `replace`, `split`, `join`, `rstrip`, `lower`, `startswith`), string order, a stable sort, a decimal codec, the JSON value type.
- `DateTimes` (datetimes.dfy): `datetime` to the second with `isoformat`/`fromisoformat` and the `strftime` forms the layout uses.
- `State` (state.dfy): src/strava_backup/models/state.py: `SyncState` and the FitTrackee export ledger (a class whose `record_export` updates it in place).
- `Activities` (activity.dfy): src/strava_backup/models/activity.py: the activity record, `info.json` and the `sessions.tsv` codec.
- `Backup` (backup.dfy): src/strava_backup/services/backup.py: `BackupService.sync` and `_download_photos` as loops with invariants.
- `Configuration` (config.dfy): src/strava_backup/config.py: defaults, precedence, `save_tokens` and the TOML writer.
- `Cli` (cli.dfy): src/strava_backup/cli.py: `JSONOutput` and `Context` as classes, include flags, credential precedence and exit codes.
- `Browser` (browser.dfy): src/strava_backup/views/browser.py: routing, photo paths, the list and detail views, time strings.
- `MapView` (map.dfy): src/strava_backup/views/map.py: photo markers, route and heatmap selection, centre, zoom, colour and sampling.
- `Migrate` (migrate.dfy): src/strava_backup/services/migrate.py: the layout migrations.
- `MykrokMigrate` (mykrok_migrate.dfy): src/mykrok/services/migrate.py: the migrations of the renamed package.
- `Screenshots` (screenshots.dfy): scripts/generate_screenshots.py: `generate_readme_section`.

The model represents the outside world as values:
- Directories and files are values that methods take and return.
- The Strava client is an oracle, with every answer (or exception) fixed in advance.
- The environment is a map.
- `datetime.now()` is a parameter.

Each loop of the source becomes a `method` proved against a specification function. Each of those
functions carries the lemmas that state what the source promises. The route loop of
`generate_map` is split in two: `RouteOptions` says what each session gives, and the method
`AddRoutes` collects the routes and heat points.

## Model

| member | source | states |
|---|---|---|
| State.DateFromJson | src/strava_backup/models/state.py:51-57 | a date read from the dictionary is None or a valid calendar datetime |
| State.SyncStateFromDict | src/strava_backup/models/state.py:41-63 | `SyncState.from_dict` only ever builds a state whose dates are valid |
| State.DateJsonRoundTrip | src/strava_backup/models/state.py:36-37 | reading back the `isoformat` written for a date gives the same date, and null gives None |
| State.SyncStateRoundTrip | src/strava_backup/models/state.py:29-63 | `from_dict(to_dict(s)) == s`: `last_sync`, `last_activity_date` (None stays None) and `total_activities` are preserved |
| State.LoadSyncState | src/strava_backup/models/state.py:203-222 | a missing file gives the default state (no dates, 0 activities); otherwise the result is `from_dict` of the file |
| State.EntryRoundTrip | src/strava_backup/models/state.py:74-104 | an export entry's dictionary reads back as the same entry |
| State.FindSpec | src/strava_backup/models/state.py:114-137 | `get_export(k)` is None exactly when `is_exported(k)` is false; otherwise it is an entry for `k` with no entry for `k` before it |
| State.MatchingAppend | src/strava_backup/models/state.py:156-162 | the entries of a session in a concatenation are those of each part, in order |
| State.WithoutAppend | src/strava_backup/models/state.py:156 | the list comprehension that drops a session distributes over concatenation |
| State.MatchingWithout | src/strava_backup/models/state.py:156 | dropping session `k` removes all its entries and keeps every other session's entries unchanged and in order |
| State.WithoutIdempotent | src/strava_backup/models/state.py:156 | dropping a session twice is the same as dropping it once |
| State.RecordSupersedes | src/strava_backup/models/state.py:155-162 | after `record_export`, the session has exactly one entry, the new one; an earlier workout id is superseded, not duplicated |
| State.RecordKeepsOthers | src/strava_backup/models/state.py:155-162 | `record_export` leaves every other session's entries unchanged and in order, and appends the new entry last |
| State.RecordKeepsOneEntry | src/strava_backup/models/state.py:155-162 | recording preserves the invariant of at most one entry per session |
| State.RecordThenFind | src/strava_backup/models/state.py:114-162 | after `record_export(k, id, t)`, `is_exported(k)` holds and `get_export(k)` is the new entry |
| State.FindMatching | src/strava_backup/models/state.py:125-137 | `get_export(k)` is the first of the session's entries, or None if it has none; having an entry means `is_exported(k)` |
| State.EntriesRoundTrip | src/strava_backup/models/state.py:164-188 | decoding the written entry dictionaries one by one gives back the same entries, in order |
| State.LedgerRoundTrip | src/strava_backup/models/state.py:164-188 | `FitTrackeeExportState.from_dict(to_dict(s))` keeps the url and the export list, in order |
| State.ExportLedger.constructor | src/strava_backup/models/state.py:107-112 | a new ledger has the given url and no exports |
| State.ExportLedger.GetExport | src/strava_backup/models/state.py:125-137 | the loop returns the first entry for the session, scanning in list order, or None |
| State.ExportLedger.RecordExport | src/strava_backup/models/state.py:139-162 | the url is kept and the exports become the earlier ones without the session, followed by the new entry; a missing export time becomes the current time |
| State.ExportLedger.FromDict | src/strava_backup/models/state.py:175-188 | it succeeds exactly when the dictionary decodes, and then yields a fresh ledger holding the decoded url and entries |
| State.ExportLedger.AppendEntries | src/strava_backup/models/state.py:186-187 | the loop appends every decoded entry in order, or stops with the first entry's decoding error |
| State.LoadFitTrackeeExportState | src/strava_backup/models/state.py:246-265 | a missing file gives an empty ledger with url ""; otherwise the result is the decoded ledger, and it fails exactly when decoding fails |
| DateTimes.FromIsoFormat | src/strava_backup/models/state.py:53 | what `fromisoformat` accepts is a valid datetime (day within its month, offset within a day) |
| DateTimes.OffsetRoundTrip | src/strava_backup/models/state.py:83-98 | the "+HH:MM"/"-HH:MM" text written for a UTC offset reads back as that offset |
| DateTimes.IsoFormatRoundTrip | src/strava_backup/models/state.py:36-57 | `fromisoformat(d.isoformat()) == d`, for naive and aware datetimes |
| DateTimes.SessionKeyRoundTrip | src/strava_backup/models/activity.py:350 | a session key written with "%Y%m%dT%H%M%S" parses back as the same wall-clock time, without its offset |
| DateTimes.IsoFormatHasNoZ | src/strava_backup/models/state.py:98 | `isoformat` never writes "Z", so `replace("Z", "+00:00")` leaves written dates unchanged |
| DateTimes.PosixTimestamp | src/strava_backup/services/backup.py:104-113 | `.timestamp()` reads an aware datetime by its own offset and a naive one in the local zone |
| Util.NatToStringDigits | src/strava_backup/models/activity.py:354-368 | `str(n)` of a natural number is a non-empty string of digits that denotes `n` |
| Util.IntToStringRoundTrip | src/strava_backup/models/activity.py:396-409 | `int(str(i)) == i` for every integer, negative ones included |
| Util.IndexOf | src/strava_backup/views/browser.py:90-95 | `find` returns the leftmost occurrence: the pattern is there and at no earlier index, and None means it occurs nowhere |
| Util.ReplaceAllNoMatch | src/mykrok/services/migrate.py:371-394 | `s.replace(p, r)` is `s` when `p` does not occur in it |
| Util.ReplaceAllErases | src/mykrok/services/migrate.py:371-394 | when the replacement cannot recreate the pattern, no occurrence of the pattern is left after `replace` |
| Util.SplitPiecesFree | src/strava_backup/views/browser.py:90-95 | no part of a split contains the separator |
| Util.JoinSplit | src/strava_backup/views/browser.py:90-95 | `sep.join(s.split(sep)) == s`, so re-joining the parts after the second rebuilds the file name |
| Util.RStrip | src/strava_backup/services/migrate.py:296 | `rstrip` gives a prefix of the text that does not end in whitespace, and only whitespace is removed |
| Util.TraverseInverse | src/strava_backup/models/activity.py:390-412 | when every element converts to the matching element of `ys`, the whole conversion gives `ys` |
| Util.TraverseFailurePropagates | src/strava_backup/models/state.py:186-187 | the first element that raises makes the whole conversion raise that exception |
| Util.LexLeTotal | src/strava_backup/services/migrate.py:96-101 | any two strings are ordered one way or the other by `<=` |
| Util.LexLeTrans | src/strava_backup/services/migrate.py:96-101 | string `<=` is transitive |
| Util.LexLeAntisym | src/strava_backup/services/migrate.py:96-101 | two strings each `<=` the other are equal |
| Util.SortByOrdered | src/strava_backup/models/activity.py:277-278 | `sort` orders the list by the key and is a permutation of it |
| Activities.NonZero | src/strava_backup/models/activity.py:89-91 | `float(x) if x else None` is present exactly for a non-zero number, and then is that number |
| Activities.FromStravaActivity | src/strava_backup/models/activity.py:67-109 | an empty or missing name becomes "Untitled"; `sport_type` falls back to `type`; `has_gps` holds exactly when `start_latlng` is non-empty; `athlete_count` is never 0; a zero elevation gain becomes None; no photos, comments or kudos are attached yet |
| Activities.WithIdentity | src/strava_backup/models/activity.py:117-125 | writes the id, name, description, types, both dates and timezone, and nothing else |
| Activities.IdentityKept | src/strava_backup/models/activity.py:117-156 | writing keys outside the identity group keeps the identity entries |
| Activities.WithMeasures | src/strava_backup/models/activity.py:126-137 | writes the distance, times and optional measures, and nothing else |
| Activities.MeasuresKept | src/strava_backup/models/activity.py:117-156 | writing keys outside the measures group keeps the measure entries |
| Activities.WithGear | src/strava_backup/models/activity.py:138-142 | writes gear, device and the three flags, and nothing else |
| Activities.GearKept | src/strava_backup/models/activity.py:117-156 | writing keys outside the gear group keeps the gear entries |
| Activities.WithSocial | src/strava_backup/models/activity.py:143-147 | writes the five social counts, and nothing else |
| Activities.SocialKept | src/strava_backup/models/activity.py:117-156 | writing keys outside the social group keeps the social entries |
| Activities.WithMedia | src/strava_backup/models/activity.py:148-155 | writes the GPS and photo flags, the photo count and the attached lists, and nothing else |
| Activities.IdentityKeysApart | src/strava_backup/models/activity.py:117-156 | the identity keys of `to_dict` differ from the keys of every other group |
| Activities.MeasuresKeysApart | src/strava_backup/models/activity.py:117-156 | the measure keys differ from the gear, social and media keys |
| Activities.LaterKeysApart | src/strava_backup/models/activity.py:117-156 | the gear, social and media keys are pairwise apart |
| Activities.LayersHaveAll | src/strava_backup/models/activity.py:117-156 | after the five groups are written in turn, every group's entries are present |
| Activities.ToDictHasAll | src/strava_backup/models/activity.py:111-156 | `to_dict` holds every entry it writes, each with the activity's own value |
| Activities.DateGet | src/strava_backup/models/activity.py:169-175 | a date read by `from_dict` is always a valid datetime |
| Activities.IdentityFields | src/strava_backup/models/activity.py:178-185 | `id`, `name` and `type` are required; a missing `sport_type` becomes `type` and a missing `timezone` becomes "" |
| Activities.MeasureFields | src/strava_backup/models/activity.py:186-197 | missing distance and times become 0, and missing calories become None |
| Activities.GearFields | src/strava_backup/models/activity.py:198-202 | missing `trainer`, `commute` and `private` become false |
| Activities.SocialFields | src/strava_backup/models/activity.py:203-207 | missing counts become 0, except `athlete_count`, which becomes 1 |
| Activities.MediaFields | src/strava_backup/models/activity.py:208-215 | missing flags become false, a missing photo count 0 and missing lists [] |
| Activities.FromDict | src/strava_backup/models/activity.py:158-216 | `from_dict` fails without `id`, `name` or `type`; it reads valid dates; and it applies the defaults (`sport_type` from `type`, timezone "", distance 0, one athlete, counts 0, flags false, lists []) |
| Activities.OptIntGetInverse | src/strava_backup/models/activity.py:129-137 | an optional number written by `to_dict` (or null) reads back as itself |
| Activities.OptStrGetInverse | src/strava_backup/models/activity.py:117-156 | an optional string written by `to_dict` (or null) reads back as itself |
| Activities.IdentityInverse | src/strava_backup/models/activity.py:178-185 | the identity entries of `to_dict` read back as the activity's identity fields |
| Activities.MeasuresInverse | src/strava_backup/models/activity.py:186-197 | the measure entries read back as the activity's measures |
| Activities.GearInverse | src/strava_backup/models/activity.py:198-202 | the gear entries read back as the activity's gear, device and flags |
| Activities.DatesInverse | src/strava_backup/models/activity.py:169-175 | both written dates parse back as the activity's dates |
| Activities.FromDictInverse | src/strava_backup/models/activity.py:158-216 | a dictionary holding every entry `to_dict` writes for `a` reads back as `a` |
| Activities.DictRoundTrip | src/strava_backup/models/activity.py:111-216 | `from_dict(to_dict(a)) == a`: every field is reproduced |
| Activities.SaveActivity | src/strava_backup/models/activity.py:219-237 | `save_activity` writes `to_dict(a)` as the `info.json` of the activity's session directory and leaves every other session unchanged |
| Activities.LoadActivity | src/strava_backup/models/activity.py:240-256 | no `info.json` gives None; otherwise the result is `from_dict` of it, and it raises exactly when `from_dict` does |
| Activities.SaveThenLoad | src/strava_backup/models/activity.py:219-295 | after `save_activity(a)`, `activity_exists(a.start_date)` holds and loading that session gives back `a`; every session with another key is unchanged |
| Activities.StoredActivities | src/strava_backup/models/activity.py:259-276 | one activity is loaded for each session directory holding an `info.json`, and each has valid dates |
| Activities.StoredFailurePropagates | src/strava_backup/models/activity.py:272-276 | once a session's `info.json` fails to load, loading all of them fails with that error |
| Activities.OrdersTotal | src/strava_backup/models/activity.py:277-278 | ordering by start time, either way, compares every pair |
| Activities.LoadActivities | src/strava_backup/models/activity.py:259-279 | `load_activities` returns the stored activities newest first, as a permutation of them, or the loading error |
| Activities.SortKeepsValid | src/strava_backup/models/activity.py:277-278 | sorting keeps every activity's dates valid |
| Activities.RowOverCells | src/strava_backup/models/activity.py:349-369 | a row has exactly the listed columns, each holding the activity's cell for it |
| Activities.SessionRowKeys | src/strava_backup/models/activity.py:299-369 | the written row has exactly the header's columns, so `DictWriter` never rejects it |
| Activities.SessionRowCells | src/strava_backup/models/activity.py:349-369 | each header column of the written row holds the activity's cell for that column |
| Activities.ResortFacts | src/strava_backup/models/activity.py:338-341 | re-sorting the newest-first list oldest first orders it oldest first and keeps every activity |
| Activities.WriteRows | src/strava_backup/models/activity.py:348-369 | the loop writes one row per activity, in order, each the row of that activity |
| Activities.UpdateSessionsTsv | src/strava_backup/models/activity.py:322-371 | `update_sessions_tsv` fails exactly when loading the activities fails; otherwise it writes the fixed header and one row per stored activity, oldest first |
| Activities.IntCell | src/strava_backup/models/activity.py:397-398 | an empty cell reads as the default, and a column the header lacks raises |
| Activities.OptIntCell | src/strava_backup/models/activity.py:399-403 | an empty cell reads as None, and a missing column raises |
| Activities.BoolCell | src/strava_backup/models/activity.py:407-408 | a missing flag column raises |
| Activities.ReadRow | src/strava_backup/models/activity.py:395-409 | empty `athletes` reads as 1, empty counts and distance as 0, and empty optional measures as None |
| Activities.ReadSessionsTsv | src/strava_backup/models/activity.py:374-412 | an absent file gives []; otherwise every row is converted in order, and the first failing row's error is raised |
| Activities.IntCellInverse | src/strava_backup/models/activity.py:354-368 | a number written with `str` reads back as that number |
| Activities.OptIntCellInverse | src/strava_backup/models/activity.py:357-362 | an optional measure written as "" for None or 0 reads back as None, and any other value as itself |
| Activities.BoolCellInverse | src/strava_backup/models/activity.py:366-367 | "true" and "false" read back, through `lower()`, as the flag they were written from |
| Activities.TimeCellsInverse | src/strava_backup/models/activity.py:354-356 | distance and times read back as written |
| Activities.MeasureCellsInverse | src/strava_backup/models/activity.py:357-361 | the optional measures read back as themselves, with 0 as None |
| Activities.SocialCellsInverse | src/strava_backup/models/activity.py:363-365 | the athlete, kudos and comment counts read back as written |
| Activities.MediaCellsInverse | src/strava_backup/models/activity.py:366-368 | the GPS and photo flags and the photo count read back as written |
| Activities.TextCellsInverse | src/strava_backup/models/activity.py:350-353 | the session key, type, sport and name are read back as written |
| Activities.GearCellInverse | src/strava_backup/models/activity.py:362 | the gear id reads back as written, with a missing gear as "" |
| Activities.RowRoundTrip | src/strava_backup/models/activity.py:349-409 | reading back the row written for `a` gives `a`'s summary: texts and flags exactly, and 0 measures as None |
| Activities.RowsRoundTrip | src/strava_backup/models/activity.py:322-412 | reading back the rows written for a list of activities gives one summary per activity, in order |
| Backup.FetchWindow | src/strava_backup/services/backup.py:103-113 | an explicit `after` wins; otherwise an incremental sync with a stored `last_activity_date` starts 86400 s before it; otherwise there is no lower bound; the upper bound comes only from `before`; `.timestamp()` reads a naive datetime in the local zone and an aware one by its offset |
| Backup.AwareWindowZoneFree | src/strava_backup/services/backup.py:103-113 | with aware bounds and watermark the window is the same in every local zone |
| Backup.IncrementalWindowOverlaps | src/strava_backup/services/backup.py:107-109 | an incremental sync's lower bound lies before the watermark, so activities up to a day older than it are fetched again |
| Backup.KeepListedSpec | src/strava_backup/services/backup.py:137-139 | the id filter keeps every occurrence of a listed id, drops every other id, and keeps the listing's order |
| Backup.SubsequenceDropHead | src/strava_backup/services/backup.py:139 | a filtered list of the tail is also a filtered list of the whole |
| Backup.FilterIds | src/strava_backup/services/backup.py:136-139 | no filter and an empty filter both leave the listing unchanged; otherwise the listing is filtered |
| Backup.PreferredUrlFirst | src/strava_backup/services/backup.py:310-315 | the chosen url is None exactly when none of 2048, 1024, 600 and 256 is offered; otherwise it is the url of the first of them that is |
| Backup.LargestUrl | src/strava_backup/services/backup.py:310-315 | the size loop picks the url of the first size offered, in the order 2048, 1024, 600, 256 |
| Backup.PhotoTarget | src/strava_backup/services/backup.py:305-338 | a photo planned for download has a non-empty url |
| Backup.PlanPhoto | src/strava_backup/services/backup.py:305-338 | the step-by-step code for one photo gives its plan: skipped without urls or a usable url, else its url and the file named from its time and extension |
| Backup.Plans | src/strava_backup/services/backup.py:305 | one plan per photo, in order |
| Backup.PlansAt | src/strava_backup/services/backup.py:305 | the plan at position `i` is the plan of the `i`-th photo |
| Backup.DownloadsMonotone | src/strava_backup/services/backup.py:305-360 | a file downloaded for the first photos is downloaded for the whole list |
| Backup.ReplayStep | src/strava_backup/services/backup.py:340-351 | one more photo adds its file and one to the count exactly when its request succeeds and its file was not present |
| Backup.ReplaySpec | src/strava_backup/services/backup.py:299-360 | the files afterwards are the existing ones plus the downloaded ones; the count is the number of new files, and at most the number of photos |
| Backup.DownloadsSpec | src/strava_backup/services/backup.py:305-351 | a file is downloaded exactly when some photo offers a url, its request succeeds and its name is that file |
| Backup.FetchedSomewhereLast | src/strava_backup/services/backup.py:305 | some photo yields a file exactly when one before the last does or the last one does |
| Backup.DownloadsLast | src/strava_backup/services/backup.py:305 | the downloads of a list are those of all but its last photo plus the last one's |
| Backup.DownloadedKeeps | src/strava_backup/services/backup.py:299-360 | whatever the outcome, no existing file is replaced or lost, only planned files are added, and the count equals the new files and is at most `len(photos)`; without an exception every planned file is present |
| Backup.DownloadPhotos | src/strava_backup/services/backup.py:283-360 | `_download_photos` ends with the replay of all the photos, or, when a photo raises, with the replay of the photos before it |
| Backup.EnrichedKeeps | src/strava_backup/services/backup.py:175-226 | the sub-resource steps change only the GPS, photo, comment and kudos fields; when photos were fetched, `has_photos` holds and `photo_count` is their number; comment and kudos counts match their lists; with nothing included the activity is unchanged |
| Backup.FetchPhotos | src/strava_backup/services/backup.py:191-210 | without a non-empty photo list nothing is downloaded; otherwise the photos are downloaded as `_download_photos` does, and the count is added only when it returns normally |
| Backup.FetchExtras | src/strava_backup/services/backup.py:175-226 | the activity after the streams, photos, comments and kudos steps, with each failed fetch swallowed; existing photo files are kept |
| Backup.SavedInfos | src/strava_backup/services/backup.py:229 | saving keeps every `info.json` already present and writes the activity's |
| Backup.SavedSessionsFrame | src/strava_backup/services/backup.py:229 | saving touches no session directory but the activity's own |
| Backup.PhotosGrow | src/strava_backup/services/backup.py:202-204 | growing one photo directory changes no other directory |
| Backup.SavedLoads | src/strava_backup/services/backup.py:229 | the saved `info.json` reads back as the saved activity |
| Backup.WriteActivity | src/strava_backup/services/backup.py:172-229 | the session's `info.json` afterwards loads as the enriched activity; other sessions are unchanged; no `info.json` or photo is lost; state, `sessions.tsv` and gear are not written |
| Backup.ProcessActivity | src/strava_backup/services/backup.py:147-248 | one activity errs exactly when its detail fetch fails or its directory cannot be created; otherwise it counts as new exactly when no `info.json` existed for its session and as updated exactly when one did; a real run writes that `info.json` and no other; a dry run or an error changes nothing |
| Backup.LatestStartIsMax | src/strava_backup/services/backup.py:145-157 | the tracked latest date is None exactly when no detail fetch succeeded; otherwise it is one of the fetched start dates and none is later |
| Backup.LatestStep | src/strava_backup/services/backup.py:156-157 | the running maximum after one more activity is the later of the two |
| Backup.LatestStartValid | src/strava_backup/services/backup.py:156-157 | the latest start date is a valid datetime |
| Backup.ErrorsOf | src/strava_backup/services/backup.py:165-170| new, updated and errored activities together account for every processed id |
| Backup.InfoForKept | src/strava_backup/services/backup.py:229 | an activity's saved `info.json` stays present while no `info.json` is removed |
| Backup.StatusRelative | src/strava_backup/services/backup.py:160-169 | a status judged against the store as it stands when the activity is reached holds against the store before the sync plus the sessions written earlier in the run: new exactly when neither has its `info.json` |
| Backup.AllFitEach | src/strava_backup/services/backup.py:147-248 | every processed id's status fits it, judged against the store before the sync and the sessions written by the earlier ids |
| Backup.AllInfoKept | src/strava_backup/services/backup.py:229 | the `info.json` of every processed activity survives later saves |
| Backup.AllInfoEach | src/strava_backup/services/backup.py:229 | every successfully processed activity has its `info.json` |
| Backup.CountStep | src/strava_backup/services/backup.py:165-170 | one more activity adds one to exactly its own counter, or one error entry |
| Backup.AllFitStep | src/strava_backup/services/backup.py:147 | the loop invariant extends by one fitting status, judged against the sessions the earlier ids wrote |
| Backup.WrittenStep | src/strava_backup/services/backup.py:160-169 | the sessions written by one more id are those written before plus that id's session when it did not err |
| Backup.WrittenHas | src/strava_backup/services/backup.py:160-169 | a session written by an earlier id that did not err is among the sessions written |
| Backup.RepeatedSessionUpdated | src/strava_backup/services/backup.py:160-235 | in a real run, a later id whose activity lands in the same session directory as an earlier successful one counts as updated, not new |
| Backup.AllInfoStep | src/strava_backup/services/backup.py:229 | the `info.json` invariant extends by one processed activity |
| Backup.SyncLoop | src/strava_backup/services/backup.py:145-248 | the loop counts each id by its status (`activities_synced == activities_new + activities_updated`, one error entry per failure, in order); an id is new exactly when neither the store before the sync nor an earlier id of the run has its session's `info.json`; the store gains exactly the `info.json` files of the sessions written; it tracks the latest start date, and in a dry run writes nothing |
| Backup.SyncStep | src/strava_backup/services/backup.py:147-248 | one turn of the loop keeps the loop's invariants about statuses, the store and the `info.json` files |
| Backup.Finish | src/strava_backup/services/backup.py:250-268 | the gear is replaced only by a non-empty fetch; `sessions.tsv` is rebuilt from the stored activities; then the sync state records now, the latest date (or the old one if no detail was fetched) and this run's total |
| Backup.SyncIds | src/strava_backup/services/backup.py:145-281 | the report counts every id, new exactly when no `info.json` for its session existed before the sync or was written earlier in the run; it fails only in a real run, when a stored activity cannot be read back for `sessions.tsv`; a dry run writes nothing and downloads no photo; a real run ends with the new sync state, the gear, a current `sessions.tsv`, and every processed activity saved |
| Backup.PhotoCapNone | src/strava_backup/services/backup.py:191-206 | without `include_photos`, or with no photo offered, no photo can be counted as downloaded |
| Backup.Sync | src/strava_backup/services/backup.py:57-281 | `sync` fails without writing when the athlete, the state or the listing fails; otherwise it processes the listing of the fetch window (with `limit` passed to the listing), filtered by id, with the counts (new exactly when no `info.json` existed or was written earlier in the run), dry-run and state-update guarantees of `SyncIds`; `photos_downloaded` is 0 in a dry run and never more than the photos offered for the processed activities |
| Configuration.SetKeyMeaning | src/strava_backup/config.py:223-227 | after `d[key] = v` the key holds `v`, every other key holds what it held, and the keys keep their order with a new key last |
| Configuration.SetKeyFound | src/strava_backup/config.py:225 | after `d[key] = v` the key holds `v` |
| Configuration.SetKeyOther | src/strava_backup/config.py:225 | `d[key] = v` changes no other key |
| Configuration.SetKeyKeys | src/strava_backup/config.py:222-223 | `d[key] = v` keeps the key order, appending a new key |
| Configuration.DefaultConfig | src/strava_backup/config.py:25-70 | a default `Config` has no client id, fetches photos, streams and comments, and has no config path |
| Configuration.EnvBool | src/strava_backup/config.py:78-83 | an unset or empty variable gives the default |
| Util.LowerIdempotent | src/strava_backup/config.py:83 | lower-casing twice is lower-casing once (used for `.lower()` in config.py and map.py:115) |
| Configuration.EnvBoolCaseInsensitive | src/strava_backup/config.py:78-83 | a set variable is true exactly when its lower-cased value is one of "true", "1", "yes", "on", whatever its case |
| Configuration.EnvBoolWords | src/strava_backup/config.py:78-83 | "TRUE", "Yes", "On" and "1" are true; "no" and "0" are false even with a true default; empty or unset gives the default |
| Configuration.FromFileKeepsAbsent | src/strava_backup/config.py:119-167 | a section the file lacks leaves its settings as they were; the config path is never touched; an empty file changes nothing |
| Configuration.FromFileIdempotent | src/strava_backup/config.py:119-167 | loading the same file twice gives what loading it once gives |
| Configuration.StravaFromFields | src/strava_backup/config.py:133-141 | each key of `[strava]` present in the file replaces the setting; each absent one keeps it |
| Configuration.FromFileFields | src/strava_backup/config.py:119-167 | a file that loads sets each string and bool setting it gives and keeps each one it does not |
| Configuration.LoadConfigFails | src/strava_backup/config.py:86-116 | `load_config` fails exactly when the configuration file exists and loading it raises |
| Configuration.LoadConfigPrecedence | src/strava_backup/config.py:86-197 | setting by setting: a non-empty environment variable, else the file, else the default; the config path is the argument, else `$STRAVA_BACKUP_CONFIG`, else the default path |
| Configuration.LoadConfigFromEnv | tests/unit/test_config.py:26-36 | with `STRAVA_CLIENT_ID` and `STRAVA_CLIENT_SECRET` set and no file, the loaded config holds those values |
| Configuration.LoadConfigFromFile | tests/unit/test_config.py:38-58 | a file with a client id, a data directory and `photos = false` loads those values and keeps `streams` true |
| Configuration.HexDigitRoundTrip | src/strava_backup/config.py:264-282 | a hex digit written for an escape is read back as its value |
| Configuration.EscapeCharDecodes | src/strava_backup/config.py:275-276 | a character escaped for a TOML basic string decodes to that character, whatever follows |
| Configuration.EscapeRoundTrip | src/strava_backup/config.py:275-276 | escaping any text and decoding the result gives the text back (the corrected string writer) |
| Configuration.UnescapedStringsBreak | src/strava_backup/config.py:275-276 | as written, `C:\data` and `a"b` are written as TOML strings that do not decode |
| Configuration.BackslashBreaks | src/strava_backup/config.py:275-276 | as written, `C:\data` gives the undefined escape `\d` |
| Configuration.QuoteBreaks | src/strava_backup/config.py:275-276 | as written, `a"b` ends the string at its inner quote |
| Configuration.FormatValueReadsBack | src/strava_backup/config.py:264-282 | with the corrected escaping, a written string decodes to the value and a written int parses to it; bools are `true`/`false`; strings without a quote, backslash or control character are written exactly as before |
| Configuration.FormatValueAsWrittenReadsBack | src/strava_backup/config.py:264-282 | as written, bools are `true`/`false` (checked before ints), an int parses back to itself, a list is bracketed, and a string without quotes, backslashes or control characters decodes back to itself |
| Configuration.EscapePlain | src/strava_backup/config.py:275-276 | a text without quotes, backslashes or control characters other than tab is left as it is |
| Configuration.TomlLinesTablesOnly | src/strava_backup/config.py:247-248 | top-level values that are not tables do not reach the file |
| Configuration.PairLinesHold | src/strava_backup/config.py:253-255 | every pair of a nested table appears as a `key = value` line |
| Configuration.KeyLinesHold | src/strava_backup/config.py:250-257 | every flat entry of a section appears as a `key = value` line |
| Configuration.TomlLinesHold | src/strava_backup/config.py:245-258 | every table of the document gets its `[name]` header and every flat entry of it a `key = value` line |
| Configuration.WritePairs | src/strava_backup/config.py:254-255 | the loop over a nested table gives its pair lines |
| Configuration.WriteSection | src/strava_backup/config.py:250-257 | the loop over a section gives its entries' lines |
| Configuration.WriteEntry | src/strava_backup/config.py:251-257 | one entry gives a nested table's header and pairs, or one pair |
| Configuration.WriteTomlLines | src/strava_backup/config.py:245-258 | the loop over the document gives the lines of its tables |
| Configuration.WriteTable | src/strava_backup/config.py:248-258 | a table gives its header, entry lines and a blank line; any other value nothing |
| Configuration.WriteToml | src/strava_backup/config.py:238-261 | the text written is the lines joined with newlines |
| Configuration.LookupKeys | src/strava_backup/config.py:222 | a key has a value exactly when it is among the keys |
| Configuration.SetTokensMeaning | src/strava_backup/config.py:225-227 | `[strava]` then holds the three tokens and every other key as before, with its keys in order |
| Configuration.SetTokensLookups | src/strava_backup/config.py:225-227 | the three tokens are set and no other key changes |
| Configuration.SetTokensKeys | src/strava_backup/config.py:225-227 | the key order after the three assignments: the old keys, then the new token keys in assignment order |
| Configuration.TokensSavedKeepsOthers | src/strava_backup/config.py:215-230 | the written document holds the three tokens in `[strava]`, keeps every other section and every other `[strava]` key, and keeps their order, adding `[strava]` last when it was missing |
| Configuration.Config.constructor | src/strava_backup/config.py:62-70 | `Config()` holds the dataclass defaults |
| Configuration.Config.LoadFromFile | src/strava_backup/config.py:119-167 | the sections are applied in turn; a section that raises stops the load with the earlier sections applied |
| Configuration.Config.ApplyEnvOverrides | src/strava_backup/config.py:170-197 | each non-empty variable replaces its field; nothing else changes |
| Configuration.Config.SaveTokens | src/strava_backup/config.py:200-235 | the path defaults to the default config path; the text written is the existing document with the tokens set; on success the tokens are set in memory, else nothing but the path changes |
| Configuration.Config.Load | src/strava_backup/config.py:86-116 | `load_config` succeeds exactly when the model's `LoadConfig` does, with a fresh object holding its settings |
| Cli.JsonOutput.constructor | src/strava_backup/cli.py:26-28 | a new accumulator is empty and enabled as asked |
| Cli.JsonOutput.Set | src/strava_backup/cli.py:30-32 | the key then holds the value; every other key is kept |
| Cli.JsonOutput.Update | src/strava_backup/cli.py:34-36 | every key of the argument takes its value, every other key keeps its own, and the keys are the union |
| Cli.JsonOutput.Output | src/strava_backup/cli.py:38-41 | the document is printed exactly when enabled, and nothing changes |
| Cli.Shows | src/strava_backup/cli.py:55-67 | JSON mode prints nothing; a normal message is printed exactly when not quiet; a verbose one exactly when its level is at most the verbosity |
| Cli.ShowsMonotone | src/strava_backup/cli.py:66-67 | more verbosity never hides a message that was shown |
| Cli.QuietOnlyNormal | src/strava_backup/cli.py:64-65 | `--quiet` hides only level-0 messages |
| Cli.ExitCode | src/strava_backup/cli.py:331-340 | a failed sync exits 2 exactly for a `ValueError`, else 1 |
| Cli.SyncIncludes | src/strava_backup/cli.py:310-312 | an item is fetched exactly when its `--no-X` flag is absent and the configuration enables it |
| Cli.SyncSummary | src/strava_backup/cli.py:324-329 | the text summary is the counts line, then the photo line only when photos were downloaded, then the error line only when there were errors |
| Cli.OrConfigured | src/strava_backup/cli.py:703-705 | a given, non-empty option wins; a missing or empty one falls back to the configured value |
| Cli.ExportSummary | src/strava_backup/cli.py:737-740 | the text summary has the exported and skipped lines, and the failed line only when some failed |
| Cli.Context.constructor | src/strava_backup/cli.py:48-53 | a new context has no settings, verbosity 0, neither quiet nor JSON, and an empty disabled accumulator |
| Cli.Context.Log | src/strava_backup/cli.py:55-67 | the message is printed exactly when `Shows` allows it |
| Cli.Context.LogAll | src/strava_backup/cli.py:55-67 | a run of normal messages is printed in full, or not at all when quiet or in JSON mode |
| Cli.Context.Error | src/strava_backup/cli.py:69-75 | JSON mode records the message under `error` and `status = "error"` and prints nothing; otherwise `Error: ` and the message go to stderr |
| Cli.Context.Configure | src/strava_backup/cli.py:117-140 | the flags are stored, a fresh accumulator is enabled by `--json`, and the settings are those `load_config` gives with `--data-dir` over the directory |
| Cli.Context.Fail | src/strava_backup/cli.py:331-340 | the error is reported, the JSON document printed when enabled, and the given exit code chosen |
| Cli.Context.Succeed | src/strava_backup/cli.py:317-329 | JSON mode adds `status = "success"` and the result; text mode logs the summary |
| Cli.Context.Sync | src/strava_backup/cli.py:280-340 | without settings, "Configuration not loaded" and exit 1; otherwise the service runs with the included items; a result exits 0 and is reported; a `ValueError` exits 2 with its message, any other exception exits 1 with "Sync failed: "; in JSON mode the accumulated document, with its status and the result or the error, is what is printed |
| Cli.Context.ExportFitTrackee | src/strava_backup/cli.py:683-746 | without settings exit 1; without a URL from the option or the settings, "FitTrackee URL is required" and exit 2 before any exporter runs; otherwise the exporter runs with the chosen credentials, a result exits 0 and any exception exits 1; in JSON mode each outcome's status and result or error is recorded and the document printed |
| Cli.CredentialsPrecedence | src/strava_backup/cli.py:703-705 | each credential is the non-empty option, else the configured value |
| Browser.FirstOf | src/strava_backup/views/browser.py:36 | the first index holding a stop character, or the length: no earlier character is one |
| Browser.UrlPath | src/strava_backup/views/browser.py:36-37 | the path `urlparse` finds holds no query or fragment, and (see `AbsoluteFormPath`) no scheme or network location |
| Browser.RStripChar | src/strava_backup/views/browser.py:43 | `rstrip` of one character gives a prefix that does not end with it, and only copies of it were removed |
| Browser.AfterPrefix | src/strava_backup/views/browser.py:43 | `path.split(sep)[1]` for a path starting with `sep` is the first piece of what follows |
| Browser.RouteOf | src/strava_backup/views/browser.py:40-55 | a photo request keeps its whole path, which starts with `/photos/` |
| Browser.SplitNoMatch | src/strava_backup/views/browser.py:43 | a string without the separator splits into itself alone |
| Browser.RouteDetailPrefix | src/strava_backup/views/browser.py:42-44 | a path under `/activity/` is the detail page of what follows, less trailing slashes |
| Browser.RouteApiDetailPrefix | src/strava_backup/views/browser.py:47-49 | a path under `/api/activity/` is the detail JSON of what follows, less trailing slashes |
| Browser.KeyAfterPrefix | src/strava_backup/views/browser.py:43 | the key is what follows the prefix, whatever number of trailing slashes |
| Browser.RouteDetailKey | src/strava_backup/views/browser.py:42-44 | `/activity/<k>` followed by any number of slashes names session `k` |
| Browser.RouteApiDetailKey | src/strava_backup/views/browser.py:47-49 | `/api/activity/<k>` followed by any number of slashes names session `k` |
| Browser.Repeat | src/strava_backup/views/browser.py:43 | `n` copies of a character |
| Browser.RStripRepeat | src/strava_backup/views/browser.py:43 | stripping appended slashes gives back a key that does not end with one |
| Browser.RouteListJsonPrefix | src/strava_backup/views/browser.py:45-46 | every path under `/api/activities` is the JSON list |
| Browser.DiffersAt | src/strava_backup/views/browser.py:40-55 | a string that differs from a prefix inside both does not start with it |
| Browser.RouteStaticPrefix | src/strava_backup/views/browser.py:52-53 | a path under `/static/` is a static request |
| Browser.RouteFixedPaths | src/strava_backup/views/browser.py:40-53 | `/` and `/index.html` are the list page; `/api/activities...` the JSON list; `/static/...` static |
| Browser.RouteUnknown | src/strava_backup/views/browser.py:40-55 | a path is not found exactly when it matches none of the paths and prefixes `do_GET` checks |
| Browser.SplitAtFirstSlash | src/strava_backup/views/browser.py:90 | a slash-free head splits off at the first slash |
| Browser.PhotoRequestRoundTrip | src/strava_backup/views/browser.py:89-95 | `/photos/<u>/<k>/<f>` names user `u`, session `k` and file `f`, even when `f` holds slashes |
| Browser.AfterPhotos | src/strava_backup/views/browser.py:90 | without a second `/photos/`, all of the rest follows the prefix |
| Browser.SplitNamesAndTail | src/strava_backup/views/browser.py:90-95 | two slash-free names and a tail split into the names and the tail's parts |
| Browser.RegroupPath | src/strava_backup/views/browser.py:90 | regrouping the components of a photo path |
| Browser.ConsTwo | src/strava_backup/views/browser.py:90 | two heads added one at a time |
| Browser.PhotoRequestNeedsThreeParts | src/strava_backup/views/browser.py:91-93 | `/photos/<u>/<k>` has no file name and is refused |
| Browser.ResolveStaysBelow | src/strava_backup/views/browser.py:104 | components without `..` resolve below the starting directory |
| Browser.SafeFilenameStaysInside | src/strava_backup/views/browser.py:104 | a relative file name without `..` opens a file inside the photos directory |
| Browser.NoPhotosWithoutH | src/strava_backup/views/browser.py:90 | a string without `h` holds no `/photos/` |
| Browser.Copies | src/strava_backup/views/browser.py:90 | `n` copies of a component |
| Browser.SplitComponents | src/strava_backup/views/browser.py:90 | `n` slash-terminated copies of a slash-free name split into `n` copies, then the rest's parts |
| Browser.SplitOneMore | src/strava_backup/views/browser.py:90 | the induction step of `SplitComponents` |
| Browser.ComponentsCons | src/strava_backup/views/browser.py:90 | one component taken off the front |
| Browser.CopiesCons | src/strava_backup/views/browser.py:90 | one copy taken off the front |
| Browser.ComponentsLack | src/strava_backup/views/browser.py:90 | repeated components hold only the characters of the name and slashes |
| Browser.ResolveUps | src/strava_backup/views/browser.py:104 | at least as many `..` as the directory is deep climb to the root |
| Browser.SplitTwoNames | src/strava_backup/views/browser.py:90 | `a/b` splits into its two names |
| Browser.SplitRootedNames | src/strava_backup/views/browser.py:90 | `/a/b` splits into an empty component and its two names |
| Browser.ResolveRootedNames | src/strava_backup/views/browser.py:104 | the empty component of a rooted path is skipped |
| Browser.ResolveTwoNames | src/strava_backup/views/browser.py:104 | two plain names resolve to themselves |
| Browser.RequestNames | src/strava_backup/views/browser.py:89-95 | a photo URL names its user, session and file name as given |
| Browser.ServesOpened | src/strava_backup/views/browser.py:98-108 | as written, a known user's photo is served as the opened file whenever that file exists |
| Browser.OpenedClimbsOut | src/strava_backup/views/browser.py:104 | enough `..` components open a file outside any photos directory |
| Browser.OpenedAbsolute | src/strava_backup/views/browser.py:104 | an absolute file name replaces any photos directory |
| Browser.PhotoPathEscapes | src/strava_backup/views/browser.py:87-112 | as written, `..` components or a leading `//` serve a file outside the photos directory |
| Browser.ServePhoto | src/strava_backup/views/browser.py:87-112 | the checked rule serves only files inside the photos directory of a known user's session |
| Browser.ServePhotoAgrees | src/strava_backup/views/browser.py:87-112 | on safe file names the checked rule serves what the as-written rule serves |
| Browser.DistanceKm | src/strava_backup/views/browser.py:170 | `round(distance / 1000, 2)` in hundredths of a kilometre is within half a hundredth; no distance gives 0 |
| Browser.EntryOf | src/strava_backup/views/browser.py:164-175 | a list row keeps its session key and user, and has GPS exactly when the manifest says so |
| Browser.SessionEntries | src/strava_backup/views/browser.py:157-175 | at most one row per session |
| Browser.AllActivities | src/strava_backup/views/browser.py:152-179 | `_get_all_activities` returns the collected rows sorted newest first |
| Browser.AllActivitiesOrdered | src/strava_backup/views/browser.py:177-178 | the list is newest first and a permutation of the collected rows |
| Browser.Loaded | src/strava_backup/views/browser.py:158-160 | the sessions kept hold an activity and come from the input |
| Browser.SessionEntriesLoaded | src/strava_backup/views/browser.py:157-175 | a session without an activity is skipped; every other gives its row, in order |
| Browser.Suffix | src/strava_backup/views/browser.py:200 | `Path.suffix` is empty or a dotted tail of the name, shorter than the name |
| Browser.LastDot | src/strava_backup/views/browser.py:200 | the last dot of a name, or -1 when it has none |
| Browser.LastDotAppend | src/strava_backup/views/browser.py:200 | a dot-free tail leaves the last dot where it was |
| Browser.SuffixMeaning | src/strava_backup/views/browser.py:200 | after a non-empty stem the suffix is the last dotted part; a hidden name such as `.jpg` has none |
| Browser.IsImageMeaning | src/strava_backup/views/browser.py:200 | a name is listed as a photo exactly when its suffix, lower-cased, is `.jpg`, `.jpeg` or `.png`; a hidden name never is |
| Browser.PhotoUrl | src/strava_backup/views/browser.py:198 | a photo URL is under `/photos/` |
| Browser.PhotoUrls | src/strava_backup/views/browser.py:196-201 | the detail photos are exactly the URLs of the image names |
| Browser.PhotoUrlRoutesBack | src/strava_backup/views/browser.py:87-95 | a URL the detail view lists routes back to its user, session and file, and is safe unless the name is `..` |
| Browser.SlashPositions | src/strava_backup/views/browser.py:198 | the only slashes of `u/k/f` are the two separators |
| Browser.NoPhotosSegment | src/strava_backup/views/browser.py:90 | `u/k/f` with slash-free names and a key other than `photos` holds no `/photos/` |
| Browser.FirstSession | src/strava_backup/views/browser.py:183-185 | the session found has the key asked for |
| Browser.FirstIn | src/strava_backup/views/browser.py:184-185 | the first session with the key, from the directory; none exactly when no session has it |
| Browser.DetailOf | src/strava_backup/views/browser.py:190-210 | the detail has GPS exactly when the manifest says so, no coordinates without it, and the photo URLs of the listed names |
| Browser.FirstSessionSkips | src/strava_backup/views/browser.py:183-185 | an athlete without the key is passed over |
| Browser.ActivityData | src/strava_backup/views/browser.py:181-212 | the two loops with their early return give the data of the first session with the key |
| Browser.ActivityDataMeaning | src/strava_backup/views/browser.py:181-212 | an unknown key has no data; data comes from the first session with the key and names it and its user |
| Browser.NoSessionNoFirst | src/strava_backup/views/browser.py:183-185 | no session with the key means none is found |
| Browser.ListFields | src/strava_backup/views/browser.py:218 | the list's minutes and seconds recompose the time, seconds below 60 |
| Browser.DetailFields | src/strava_backup/views/browser.py:282 | the detail's hours, minutes and seconds recompose the time, minutes and seconds below 60 |
| Browser.TimesAgree | src/strava_backup/views/browser.py:218-282 | the list's minutes are the detail's hours and minutes together, and the seconds agree |
| Browser.DoGet | src/strava_backup/views/browser.py:34-55 | `do_GET` answers by the route of the parsed path; a photo is served by the rule as written, with the URL's file name joined to the photos directory unchecked |
| Browser.RouteResponse | src/strava_backup/views/browser.py:40-55 | each route is answered by its handler: the list and the JSON listing, one activity by its session key, a photo by the rule as written, and 404 "Not Found" for static files and unknown paths |
| Browser.ListResponse | src/strava_backup/views/browser.py:57-77 | the list page and the JSON list hold the sorted activities |
| Browser.DetailResponse | src/strava_backup/views/browser.py:64-85 | a detail page or JSON holds the session's data, or "Activity not found" |
| Browser.UrlPathPlain | src/strava_backup/views/browser.py:36-37 | a path without scheme, query, fragment or network location is its own path with the `;` parameters of its last segment cut off |
| Browser.UrlPathLocal | src/strava_backup/views/browser.py:36-37 | without a scheme and a leading `//` the path is the target up to its query or fragment, with the `;` parameters of its last segment cut off |
| Browser.QueryIgnored | src/strava_backup/views/browser.py:36-38 | the query and the fragment never change the path |
| Browser.SchemeLength | src/strava_backup/views/browser.py:36 | a scheme is cut only when it starts with an ASCII letter, holds only scheme characters and is followed by `:` |
| Browser.AbsoluteFormPath | src/strava_backup/views/browser.py:36-37 | an absolute-form target `scheme://host/path` routes by its path alone (without parameters for the schemes of `uses_params`), so `http://h/api/sessions` is `/api/sessions` |
| Browser.SchemeCut | src/strava_backup/views/browser.py:36 | a scheme followed by `:` is cut off and decides whether parameters are cut |
| Browser.NetlocCut | src/strava_backup/views/browser.py:36 | a `//` network location ends at the `/` that starts the path |
| Browser.StripParams | src/strava_backup/views/browser.py:36-37 | `_splitparams`: the result is a prefix of the path that keeps everything up to the last `/` and holds no `;` after it |
| Browser.StripParamsMeaning | src/strava_backup/views/browser.py:36-37 | the path is unchanged exactly when its last segment holds no `;`; otherwise it is cut at that segment's first `;` |
| Browser.LastSegmentParamsCut | src/strava_backup/views/browser.py:36-37 | `a/k;x` (no `/` in `k` or `x`, no `;` in `k`) loses `;x` and keeps `a/k` |
| Browser.AfterLastSlash | src/strava_backup/views/browser.py:36-37 | the index after the last `/`: a `/` precedes it and none follows it |
| Browser.AfterLastSlashTail | src/strava_backup/views/browser.py:36-37 | the last segment of `a/b` (no `/` in `b`) starts right after `a/` |
| Browser.FirstOfNone | src/strava_backup/views/browser.py:36 | without a stop character the index is the length |
| Browser.FirstOfStops | src/strava_backup/views/browser.py:36 | a stop right after a stop-free prefix is found there |
| MapView.WindowInclusive | src/strava_backup/views/map.py:104-107 | a session date passes the window exactly when it is no earlier than `after` and no later than `before`, each when given |
| MapView.TypeFilterIgnoresCase | src/strava_backup/views/map.py:115 | the type filter ignores the case of the activity type and of the filter |
| MapView.SessionDate | src/strava_backup/views/map.py:99-107 | a session has a date exactly when its key parses and the date is inside the window |
| MapView.Len | src/strava_backup/views/map.py:126 | `len` succeeds exactly on strings, lists and objects |
| MapView.At | src/strava_backup/views/map.py:131 | indexing a list in range gives its element; every failure is an IndexError, KeyError or TypeError |
| MapView.PhotoLocation | src/strava_backup/views/map.py:124-135 | a photo kept has a truthy location; a photo that is not an object raises |
| MapView.LocationFromNestedList | src/strava_backup/views/map.py:129-135 | a location `[[root, [lat, lng, ...]], ...]` gives its first two items; fewer than two items skip the photo |
| MapView.LocationSkipped | src/strava_backup/views/map.py:125-135 | a missing, null or empty location is skipped, and so is one whose first item has no second item |
| MapView.FirstMatchNone | src/strava_backup/views/map.py:149-152 | the search finds nothing exactly when no file matches |
| MapView.FirstMatchAt | src/strava_backup/views/map.py:149-152 | a found element matches and none before it does |
| MapView.FirstWithStemNone | src/strava_backup/views/map.py:149-152 | no file is found exactly when no stem is the expected one |
| MapView.FirstWithStemAt | src/strava_backup/views/map.py:149-152 | a found file is the first in listing order whose stem is the expected one |
| MapView.FindPhotoFile | src/strava_backup/views/map.py:149-152 | the loop with its `break` gives the first file whose stem matches |
| MapView.LocalPathFound | src/strava_backup/views/map.py:138-154 | a local path names a listed file whose stem is the expected one |
| MapView.LocalPathMissing | src/strava_backup/views/map.py:138-154 | no file with the expected stem means no local path |
| MapView.PhotoEntry | src/strava_backup/views/map.py:156-168 | a marker carries the session key, the activity name and the session's date |
| MapView.PhotoEntriesFailureStays | src/strava_backup/views/map.py:124-168 | once a photo raises, the rest of the photos change nothing |
| MapView.PhotoActivity | src/strava_backup/views/map.py:99-120 | an activity is used only when the session's date passes, its activity loads and it has the wanted type |
| MapView.PhotoMarker | src/strava_backup/views/map.py:124-168 | one turn of the photo loop gives the photo's marker |
| MapView.SessionPhotos | src/strava_backup/views/map.py:99-168 | the photo loop of one session gives its markers |
| MapView.AthletePhotosFailureStays | src/strava_backup/views/map.py:97-168 | once a session raises, the later sessions change nothing |
| MapView.GeotaggedPhotosFailureStays | src/strava_backup/views/map.py:96-168 | once an athlete raises, the later athletes change nothing |
| MapView.AthleteGeoPhotos | src/strava_backup/views/map.py:97-168 | the session loop of one athlete gives its markers, in order, or the first error |
| MapView.CollectGeotaggedPhotos | src/strava_backup/views/map.py:77-170 | `_collect_geotagged_photos` gives every athlete's markers in order, or the first error |
| MapView.SessionRouteMeaning | src/strava_backup/views/map.py:203-248 | a session gives a route exactly when its date passes, its manifest has GPS, its activity loads with the wanted type and it has coordinates; the route holds the session's coordinates, name, type, date and distance |
| MapView.RouteOptions | src/strava_backup/views/map.py:204 | one route option per session |
| MapView.SomesStep | src/strava_backup/views/map.py:238 | one more session adds its route when it has one |
| MapView.SomesFrom | src/strava_backup/views/map.py:238 | every route kept comes from some session |
| MapView.SomesHas | src/strava_backup/views/map.py:238 | every session's route is kept |
| MapView.AthleteRouteFrom | src/strava_backup/views/map.py:204-248 | a route belongs to an athlete exactly when one of its sessions gives it |
| MapView.RouteFrom | src/strava_backup/views/map.py:203-248 | each route of the data directory is the route of one of its sessions |
| MapView.RoutesNeedGps | src/strava_backup/views/map.py:216-233 | each route comes from a session with a GPS manifest, an activity and the route's non-empty coordinates |
| MapView.PointsSnoc | src/strava_backup/views/map.py:236 | one more route adds its coordinates at the end |
| MapView.PointsAppend | src/strava_backup/views/map.py:236 | the points of two route lists are the points of each, in order |
| MapView.MinOf | src/strava_backup/views/map.py:282 | `min` is an element and no element is smaller |
| MapView.MaxOf | src/strava_backup/views/map.py:282 | `max` is an element and no element is larger |
| MapView.Zoom | src/strava_backup/views/map.py:287-296 | the zoom is one of 15, 12, 10, 7 and 4 |
| MapView.ZoomNonIncreasing | src/strava_backup/views/map.py:287-296 | a wider span never zooms in further |
| MapView.ViewOf | src/strava_backup/views/map.py:280-296 | the centre lies within half the span of every coordinate, and the zoom follows the larger span |
| MapView.RoutesView | src/strava_backup/views/map.py:272-296 | no coordinates give the world view |
| MapView.Colour | src/strava_backup/views/map.py:299-311 | a known type gets its colour, any other the colour of "Other" |
| MapView.UnknownTypesShareColour | src/strava_backup/views/map.py:311 | all types outside the palette share the colour of "Other" |
| MapView.EveryNth | src/strava_backup/views/map.py:744 | `points[::step]` keeps at most all points and starts with the first |
| MapView.EveryNthAt | src/strava_backup/views/map.py:744 | the `i`-th point kept is the point at `i * step` |
| MapView.EveryNthCovers | src/strava_backup/views/map.py:744 | the count kept is `len(points) / step` rounded up |
| MapView.EveryNthBound | src/strava_backup/views/map.py:744 | with at most `m * step` points, at most `m` are kept |
| MapView.EveryNthOne | src/strava_backup/views/map.py:744 | a step of 1 keeps every point |
| MapView.SampleAsWrittenKeepsTooMany | src/strava_backup/views/map.py:741-744 | as written, from 50001 to 99999 points the step is 1 and more than 50000 points are kept |
| MapView.SampleAsWrittenAt | src/strava_backup/views/map.py:741-744 | as written, up to 50000 points are kept unchanged; above that the first point is kept and each kept point is the input point at a multiple of `len // 50000` |
| MapView.SampleStep | src/strava_backup/views/map.py:743 | the corrected step is positive and keeps at most 50000 points |
| MapView.SampleBounded | src/strava_backup/views/map.py:741-744 | the corrected sampling keeps at most 50000 points and keeps up to 50000 unchanged |
| MapView.SampleAt | src/strava_backup/views/map.py:744 | each point the corrected sampling keeps is the input point at a multiple of the step |
| MapView.Heat | src/strava_backup/views/map.py:747 | one heat entry per point, its coordinates with intensity 1.0 |
| MapView.Numbers | src/strava_backup/views/map.py:718-722 | the photo coordinates convert exactly when every one is a number |
| MapView.RoutesPage | src/strava_backup/views/map.py:256-324 | the routes page holds every route with its colour, in order, and the photos; its view is the world view without points, and otherwise the view of the route points |
| MapView.PhotoLats | src/strava_backup/views/map.py:718 | the photo latitudes, in order |
| MapView.PhotoLngs | src/strava_backup/views/map.py:719 | the photo longitudes, in order |
| MapView.Lats | src/strava_backup/views/map.py:718 | the point latitudes, in order |
| MapView.Lngs | src/strava_backup/views/map.py:719 | the point longitudes, in order |
| MapView.HeatmapPage | src/strava_backup/views/map.py:697-748 | a heat map holds the photos and the heat of the points sampled as written (step `len // 50000`); with no points and no photos it shows the world view, and otherwise the view of the points together with the photo coordinates |
| MapView.HeatmapFailsOnText | src/strava_backup/views/map.py:718-725 | the heat map raises exactly when a photo coordinate is not a number |
| MapView.HiddenPhotos | src/strava_backup/views/map.py:199-201 | without `show_photos` the page has no photos and is always produced |
| MapView.AddRoutes | src/strava_backup/views/map.py:204-248 | the session loop adds the routes, or in heat-map mode their coordinates |
| MapView.CollectRoutes | src/strava_backup/views/map.py:194-248 | the nested loops give every route, or in heat-map mode every point |
| MapView.GenerateMap | src/strava_backup/views/map.py:173-253 | `generate_map` gives the photos when asked, then the heat map or the routes page |
| Migrate.Renamed | src/strava_backup/services/migrate.py:39-52 | the listing keeps its length while its first entries are renamed |
| Migrate.PlanRenamesEachLegacy | src/strava_backup/services/migrate.py:39-49 | every rename takes a `sub=` directory to the `athl=` name of the same user, and every `sub=` directory is renamed |
| Migrate.SameTargetSameName | src/strava_backup/services/migrate.py:41-42 | two directories with the same new name had the same old name |
| Migrate.AthleteNameNotLegacy | src/strava_backup/services/migrate.py:40 | a directory already carrying `athl=` is not renamed |
| Migrate.ClashUnaffected | src/strava_backup/services/migrate.py:44-52 | whether a new name is taken does not depend on the renames made before it |
| Migrate.MigrateAthletePrefixes | src/strava_backup/services/migrate.py:24-54 | a missing data directory gives no renames; the migration raises exactly when some new name is taken, keeping the renames before it; otherwise every `sub=` directory is renamed, or in a dry run only reported |
| Migrate.FirstDateLeast | src/strava_backup/services/migrate.py:96-99 | the first activity is the least non-empty `datetime`, present exactly when some row has one |
| Migrate.LastDateGreatest | src/strava_backup/services/migrate.py:96-101 | the last activity is the greatest non-empty `datetime`, present exactly when some row has one |
| Migrate.SportsOnce | src/strava_backup/services/migrate.py:111-113 | the sport list holds each non-empty `sport` of the rows, once |
| Migrate.LexLeRefl | src/strava_backup/services/migrate.py:98-101 | string order is reflexive |
| Migrate.FirstNotAfterLast | src/strava_backup/services/migrate.py:96-101 | the first activity never comes after the last one |
| Util.LexLeIsTotal | src/strava_backup/services/migrate.py:126 | `sorted` on strings sorts by a total order |
| Migrate.DistinctCounts | src/strava_backup/services/migrate.py:87 | a set's elements occur once |
| Migrate.TwoOccurrences | src/strava_backup/services/migrate.py:87 | an element at two places counts twice |
| Migrate.CountsDistinct | src/strava_backup/services/migrate.py:87 | elements that occur at most once are distinct |
| Migrate.SortedTypes | src/strava_backup/services/migrate.py:126 | the sorted sports are ordered, distinct, and the same sports |
| Migrate.AthleteRowDates | src/strava_backup/services/migrate.py:82-123 | a row counts one session per row of `sessions.tsv`; the first activity is empty exactly when no row has a date, and is not after the last |
| Migrate.AthleteRowTypes | src/strava_backup/services/migrate.py:110-126 | `activity_types` is the sorted distinct sports joined by commas |
| Migrate.SummarizeSessions | src/strava_backup/services/migrate.py:89-113 | the per-row loop gives the totals of the rows |
| Migrate.AthleteRows | src/strava_backup/services/migrate.py:76-127 | one row per athlete directory |
| Migrate.GenerateAthletesTsv | src/strava_backup/services/migrate.py:57-149 | `generate_athletes_tsv` writes the rows of every athlete directory, in order |
| Migrate.CenterHeaderMeaning | src/strava_backup/services/migrate.py:183-187 | the old header stays in place and only the missing center columns are appended |
| Migrate.CenterRows | src/strava_backup/services/migrate.py:190-219 | every row gets its center cells |
| Migrate.HitsAreFilled | src/strava_backup/services/migrate.py:210-216 | the count of updated sessions is the number of rows whose coordinates were filled, at most the number of rows |
| Migrate.CenterDirMeaning | src/strava_backup/services/migrate.py:167-225 | a missing file, or one with both columns when not forced, is left alone and adds nothing; otherwise both columns are in the header and each row keeps its other cells and holds the start point or "" |
| Migrate.CenterSessions | src/strava_backup/services/migrate.py:190-225 | the row loop gives the rewritten table and the number of rows with a start point |
| Migrate.CenterDirs | src/strava_backup/services/migrate.py:167-225 | one directory out per directory in |
| Migrate.AddCenterCoordsToSessions | src/strava_backup/services/migrate.py:152-227 | `add_center_coords_to_sessions` rewrites every athlete directory and counts the filled rows |
| Migrate.RewrittenElsewhere | src/strava_backup/services/migrate.py:242-253 | rewriting keeps the set of files and every file it does not name |
| Migrate.LegacyPrefixErased | src/strava_backup/services/migrate.py:252 | replacing `sub=` by `athl=` leaves no `sub=` |
| Migrate.ReportedMeaning | src/strava_backup/services/migrate.py:242-255 | a file is reported exactly when it is a dataset file that mentions `sub=` |
| Migrate.UpdateDatasetFilesErases | src/strava_backup/services/migrate.py:242-257 | after a real run neither Makefile nor README.md mentions `sub=`, other files are unchanged, and a second run reports nothing |
| Migrate.UpdateDatasetFiles | src/strava_backup/services/migrate.py:230-257 | `update_dataset_files` reports the files that mention `sub=` and rewrites them unless it is a dry run |
| Migrate.MarkerAfter | src/strava_backup/services/migrate.py:296 | the appended rule carries the marker |
| Migrate.AddLogRule | src/strava_backup/services/migrate.py:268-298 | the rule is added exactly when the marker is absent; after a real run it is present |
| Migrate.AddLogRuleIdempotent | src/strava_backup/services/migrate.py:284-288 | a second call adds nothing and changes nothing |
| Migrate.AddLogRuleAppends | src/strava_backup/services/migrate.py:296 | the new content is the old one without trailing whitespace, a blank line, then the rule |
| Migrate.AddLogRuleDryRun | src/strava_backup/services/migrate.py:292-293 | a dry run answers as the real run and changes nothing |
| Migrate.MigratedRootHasLogRule | src/strava_backup/services/migrate.py:340-343 | after a real run `.gitattributes` exists and carries the rule |
| Migrate.UpdateDatasetRoot | src/strava_backup/services/migrate.py:336-343 | steps 2 and 3 report the rewritten files and the rule, and change the dataset root only in a real run |
| Migrate.RunFullMigration | src/strava_backup/services/migrate.py:301-353 | the migration fails exactly when renames are needed and a new name is taken, before any other step; a dry run changes nothing; a real run writes `athletes.tsv` and the center columns |
| MykrokMigrate.StartHeader | src/mykrok/services/migrate.py:192-203 | the renamed header has one column per old column |
| MykrokMigrate.StartHeaderMeaning | src/mykrok/services/migrate.py:192-203 | `center_lat` and `center_lng` become `start_lat` and `start_lng` in place, every other column stays, and no legacy column is left |
| MykrokMigrate.StartRowMeaning | src/mykrok/services/migrate.py:206-223 | a migrated row has no legacy cell and keeps every other cell; the start cells are the old center cells, or, when one is missing or empty and the session has a start point, that point |
| MykrokMigrate.StartRows | src/mykrok/services/migrate.py:206-223 | one row out per row in |
| MykrokMigrate.StartDirs | src/mykrok/services/migrate.py:170-232 | one directory out per directory in |
| MykrokMigrate.FirstStray | src/mykrok/services/migrate.py:225-230 | the index of the first row with a key outside the header: every row before it fits, the row at it does not |
| MykrokMigrate.OneLegacyColumnRaises | src/mykrok/services/migrate.py:206-230 | a header with `center_lat` but no `center_lng` and a row whose start point is found: the file keeps the header and the rows before that row, and the rewrite raises `ValueError` |
| MykrokMigrate.BothColumnsWrite | src/mykrok/services/migrate.py:206-230 | a header with both legacy columns and rows holding only header keys is rewritten in full without error |
| MykrokMigrate.FirstFailing | src/mykrok/services/migrate.py:170-232 | the index of the first directory whose rewrite raises: none before it does, the one at it does |
| MykrokMigrate.StartedDirs | src/mykrok/services/migrate.py:170-232 | after the loop every directory is there; with no failing rewrite each is migrated on its own |
| MykrokMigrate.StartCountMeaning | src/mykrok/services/migrate.py:170-234 | files already migrated or without a legacy column are left alone and not counted; the count is at most the number of athletes |
| MykrokMigrate.MigrateSessionsFile | src/mykrok/services/migrate.py:192-230 | a file with a legacy column gets the renamed header and then the migrated rows up to the first row with a key outside that header, where `DictWriter` raises `ValueError`; with no such row every migrated row is written |
| MykrokMigrate.MigrateCenterToStartCoords | src/mykrok/services/migrate.py:156-234 | `migrate_center_to_start_coords` rewrites the files whose header has a legacy column in order; it raises `ValueError` exactly when some rewrite does, leaving the directories after that one untouched; otherwise it rewrites all of them and counts them |
| MykrokMigrate.MigrateConfigDirectory | src/mykrok/services/migrate.py:308-353 | as written: a dry run changes nothing; a failure happens only in a real run, when `.mykrok` is a file |
| MykrokMigrate.RealRunMovesDir | src/mykrok/services/migrate.py:333-343 | in a real run, when the legacy directory moves, it is gone, `.mykrok` exists holding every file it held with the same content, and the rename is reported; otherwise no rename is reported and the legacy directory stays as it was |
| MykrokMigrate.RealRunMovesFile | src/mykrok/services/migrate.py:345-353 | in a real run, the legacy `.strava-backup.toml` moves exactly when it exists and the (possibly renamed) directory holds no config; the run fails exactly when it would move and `.mykrok` is a file; a move removes the legacy file, puts its content at `.mykrok/config.toml` and is reported, and no move leaves the files unchanged |
| MykrokMigrate.DryRunReportsSkippedFileMove | src/mykrok/services/migrate.py:334-351 | as written, a dry run reports moving `.strava-backup.toml` although the real run, having moved a `.strava-backup/` that holds `config.toml`, skips it |
| MykrokMigrate.MigrateConfigDirectoryFixed | src/mykrok/services/migrate.py:308-353 | the corrected migration changes nothing in a dry run and is the as-written one in a real run |
| MykrokMigrate.FixedDryRunReportsRealMoves | src/mykrok/services/migrate.py:308-353 | with the correction, a dry run reports exactly the moves a real run makes |
| MykrokMigrate.ConfigNeverOverwrites | src/mykrok/services/migrate.py:333-351 | an existing `.mykrok` file, every file of an existing `.mykrok/` and an existing `.mykrok/config.toml` are never replaced |
| MykrokMigrate.ConfigDirErased | src/mykrok/services/migrate.py:384-388 | replacing `.strava-backup` by `.mykrok` leaves no `.strava-backup` |
| MykrokMigrate.ReplacingChanges | src/mykrok/services/migrate.py:390-394 | a text that mentions `.strava-backup` changes when it is rewritten, and no mention is left |
| MykrokMigrate.UpdateGitattributesPaths | src/mykrok/services/migrate.py:356-394 | the file is updated exactly when it exists and mentions `.strava-backup`; a dry run changes nothing; after a real run no mention is left |
| MykrokMigrate.UpdateGitattributesPathsIdempotent | src/mykrok/services/migrate.py:371-394 | after a real run a second call finds nothing to update and changes nothing |
| MykrokMigrate.ReplaceWordEndNoMatch | src/mykrok/services/migrate.py:423 | a `\b` pattern that does not match leaves the text as it is |
| MykrokMigrate.SubstituteNoMatch | src/mykrok/services/migrate.py:455-456 | `re.sub` with a pattern that does not match changes nothing |
| MykrokMigrate.AppliedNoMatch | src/mykrok/services/migrate.py:455-456 | when no pattern matches, the replacements change nothing |
| MykrokMigrate.NeedsTemplateUpdate | src/mykrok/services/migrate.py:441-445 | the check loop says yes exactly when some pattern matches |
| MykrokMigrate.ApplyTemplateReplacements | src/mykrok/services/migrate.py:455-456 | the substitution loop applies every replacement in order |
| MykrokMigrate.TemplateReportedMeaning | src/mykrok/services/migrate.py:437-460 | a file is reported only when some pattern matches; a file a real run reports a dry run reports too; a file no pattern matches is neither reported nor changed |
| MykrokMigrate.TemplatesMeaning | src/mykrok/services/migrate.py:432-462 | a name is reported exactly when it is listed and reported on its own; a real run reports a subset of a dry run; rewriting keeps every file and changes only reported ones |
| MykrokMigrate.UpdateTemplates | src/mykrok/services/migrate.py:432-462 | the file loop reports and rewrites as `TemplatesMeaning` describes; a dry run writes nothing |
| MykrokMigrate.UpdateDatasetTemplateFiles | src/mykrok/services/migrate.py:397-462 | `update_dataset_template_files` over README.md, Makefile and .gitignore with the replacement list |
| MykrokMigrate.WithRootOnlyRoot | src/mykrok/services/migrate.py:505-508 | replacing the dataset root changes nothing else |
| MykrokMigrate.UpdateMykrokRoot | src/mykrok/services/migrate.py:515-523 | steps 2 and 3 report the `.gitattributes` and template updates and rewrite the root in turn |
| MykrokMigrate.RefreshAthletes | src/mykrok/services/migrate.py:536-542 | steps 7 and 8: the column migration, which raises exactly when a file has a stray key (then `athletes.tsv` is not built), else `athletes.tsv` from the migrated sessions |
| MykrokMigrate.PrepareRoot | src/mykrok/services/migrate.py:510-523 | steps 1 to 3 on the dataset root, step 1 being `migrate_config_directory` as written; a dry run changes nothing |
| MykrokMigrate.CompleteMigration | src/mykrok/services/migrate.py:530-542 | steps 5 to 8: the dataset files and log rule, then, unless a dry run, the columns and `athletes.tsv`; the column step fails with `ValueError` exactly when a file has a stray key, and `athletes.tsv` then stays as it was |
| MykrokMigrate.RunFullMigration | src/mykrok/services/migrate.py:465-544 | the eight steps in order, with `migrate_config_directory` as written; the run fails exactly when the config step fails, the prefix renames clash, or (in a real run) a sessions file has a stray key; a step that raises ends the run with the earlier steps' effects kept; a dry run changes nothing |
| Screenshots.StartsWithPrefix | scripts/generate_screenshots.py:214 | `startswith` holds exactly when the prefix is a prefix of the file name |
| Screenshots.AnyPrefixMeaning | scripts/generate_screenshots.py:214 | `any(...)` holds exactly when some prefix of the view starts the file name |
| Screenshots.Blocks | scripts/generate_screenshots.py:212-222 | one block per view |
| Screenshots.Lines | scripts/generate_screenshots.py:196-222 | the section always opens with the five header lines |
| Screenshots.Lists | scripts/generate_screenshots.py:212-215 | one list of screenshots per view |
| Screenshots.AddShotLines | scripts/generate_screenshots.py:219-222 | the inner loop appends three lines per screenshot, in order |
| Screenshots.AddViewBlock | scripts/generate_screenshots.py:213-222 | one outer iteration appends the view's block: nothing when no screenshot belongs to it |
| Screenshots.AddViewLines | scripts/generate_screenshots.py:212-222 | the outer loop appends the blocks of the views in order |
| Screenshots.GenerateReadmeSection | scripts/generate_screenshots.py:194-224 | `generate_readme_section` returns the header and the blocks joined by newlines |
| Screenshots.ConcatMembers | scripts/generate_screenshots.py:212-222 | a line of the concatenated blocks comes from one of them, and every block's lines are in it |
| Screenshots.ConcatAt | scripts/generate_screenshots.py:212-222 | a non-empty block starts right after the blocks before it |
| Screenshots.ViewsInOrder | scripts/generate_screenshots.py:205-212 | the blocks come in the order Map View, Sessions View, Session Detail, Statistics |
| Screenshots.MatchingMembers | scripts/generate_screenshots.py:213-215 | a screenshot is in a view's list exactly when it is an input and one of the view's prefixes starts its file name |
| Screenshots.MatchingEmpty | scripts/generate_screenshots.py:213-216 | a view's list is empty exactly when no input belongs to the view |
| Screenshots.MatchingOrder | scripts/generate_screenshots.py:213-215 | two screenshots of a view keep their input order in its list |
| Screenshots.ShotsLinesAt | scripts/generate_screenshots.py:219-222 | screenshot k gives lines 3k to 3k+2: the image link, the italic caption, a blank line |
| Screenshots.ShotsLinesNoHeading | scripts/generate_screenshots.py:220-222 | no line of a screenshot starts with `#` |
| Screenshots.ViewLinesMeaning | scripts/generate_screenshots.py:216-222 | a block is empty exactly when no screenshot belongs to the view; otherwise it is the heading, a blank line and three lines per screenshot |
| Screenshots.ViewHeadings | scripts/generate_screenshots.py:216-222 | the only line of a block starting with `#` is its heading, and it appears only when the view has screenshots |
| Screenshots.ViewHead | scripts/generate_screenshots.py:216-217 | a view with screenshots opens its block with `### ` and its name |
| Screenshots.HeadingNames | scripts/generate_screenshots.py:205-210 | the four views have different headings |
| Screenshots.HeadingIffMatch | scripts/generate_screenshots.py:212-222 | a view's heading is in the section after the header exactly when some screenshot belongs to the view |
| Screenshots.ShownMembers | scripts/generate_screenshots.py:212-222 | a screenshot is shown exactly when it is an input and belongs to one of the views |
| Screenshots.ShotsLinesFrom | scripts/generate_screenshots.py:219-222 | every line of a run of screenshots is a line of one of them |
| Screenshots.BlockLineFrom | scripts/generate_screenshots.py:216-222 | every non-blank, non-heading line of a block belongs to one of the view's screenshots |
| Screenshots.LineFrom | scripts/generate_screenshots.py:212-222 | every non-blank, non-heading line after the header belongs to a shown screenshot |
| Screenshots.SharedPrefix | scripts/generate_screenshots.py:214 | two prefixes of the same length that both start a file name are equal |
| Screenshots.PrefixesOfView | scripts/generate_screenshots.py:205-210 | every prefix has three characters, and its digit names its view |
| Screenshots.OneView | scripts/generate_screenshots.py:205-215 | no file name belongs to two views, so no screenshot is shown twice |

## Left out

- Network calls: `StravaClient`, `requests.get` and `time.sleep` are not modelled. The client is an oracle (`Backup.Client`) and a photo download is an outcome given in advance.
- `authenticate` and the `auth` command: an OAuth flow over HTTP, not modelled.
- `sync_single_activity` and the other `BackupService` helpers outside `sync` and `_download_photos` are not modelled.
- HTTP servers, HTML, CSS and JavaScript: the sockets, `wfile` and page templates of map.py and browser.py, and the JavaScript embedded in the map page, are not modelled. Their pages are reduced to the data put into them.
- JSON and TOML text: files are modelled as parsed values. Object key order is not modelled, and a file that does not parse is not modelled (`json.load` and `tomllib.load` raise).
- Floating point: distances, speeds and durations are integers; coordinates are `real`. `round(x, 6)`, the `/1000` rounding of `distance_km` and other float formatting are exact or absent.
- `fromisoformat`, `strftime` and `timestamp` are modelled only for the forms the data layout writes: to the second, with an optional `+HH:MM` offset. No microseconds.
- `get_session_dir`, `get_photo_path`, `iter_session_dirs`, the tracking manifest and `get_coordinates` (lib/paths and models/tracking) are not part of this model. They become parameters, or fields of the directory values, and listings keep their `iterdir` order.
- Parquet track data is not modelled. A session carries its first GPS point or its coordinate list.
- `Util.Lower` lower-cases ASCII letters only, whereas Python's `str.lower` covers all of Unicode.
- Browser.UrlPath: `urlparse` is modelled only for the path: the `scheme:`, the `//` network location, the query, the fragment and, for the schemes of `uses_params`, the `;` parameters of the last segment are cut off. Not modelled: the stripping of leading control characters and blanks, the removal of tabs and line breaks, the `ValueError` for a malformed bracketed IPv6 network location, and the `unquote` of the path.
- Browser.ServePhoto: `present` stands for `exists()`. The error an existing directory would raise when `_serve_file` opens it is not modelled.
- Activities.FromDict: only values of the types the dataclass annotates are modelled. A field of another type makes the model fail, where Python's `cls(...)` stores the value as given.
- Activities.DateGet: a missing or non-string `start_date`/`start_date_local` fails in the model, where `from_dict` keeps `None` (or the raw value) and still builds the activity.
- Configuration.StrAt: `StrAt`, `IntAt`, `BoolAt` and `StringsAt` read only values of the expected TOML type and keep the previous setting otherwise, where `.get` stores a value of any type (`client_id = 12345` stores an int).
- Configuration.StravaFromFields: "each key present replaces the setting" holds for values of the expected type only, as under `Configuration.StrAt`.
- Configuration.StravaFrom: a `[strava]` whose `exclude` is not a table fails the whole section, so the settings keep their earlier values, where `_load_from_file` (config.py:135-145) has already assigned `client_id` … `token_expires_at` in place before `.get` raises.
- Configuration.DirectoryFrom: a `data` value that is not a table fails with `NotATable`, where config.py:148-150 only tests `"directory" in data_section` (a string or a list without `"directory"` in it is then ignored, and other values raise `TypeError`).
- State.DateFromJson: only a string or null is read; a value of another JSON type (a number, a list, an object) fails, where `from_dict` (state.py:51-57) tests `isinstance(…, str)` and stores any other value unparsed.
- State.SyncStateFromDict: `total_activities` must be a JSON integer, where `data.get("total_activities", 0)` stores a value of any type.
- State.ExportLedger.FromDict: a `fittrackee_url` that is not a string, an `exports` value that is not a list, or an entry whose `exported_at` is not a string or whose `ses` or `ft_workout_id` has an unexpected JSON type, fails, where `from_dict` (state.py:96-104 and 184-187) stores such values as they are and iterates any iterable.
- Migrate.Amount: `distance_m` is read as an integer, where migrate.py:105 uses `float()` (so `"12.5"` adds 12.5 there and 0 here); `int()` at migrate.py:108 also accepts surrounding blanks, a `+` sign and `_` digit separators, which are not modelled.
- DateTimes.Before: orders a naive datetime against an aware one, where Python raises `TypeError`; the dates Strava returns are always aware, so the comparisons at backup.py:156 and activity.py:278 and 341 never mix the two.
- Configuration.FromFileFields: holds for values of the expected type only, as under `Configuration.StrAt`.
- Configuration.LoadConfigPrecedence: "else the file" holds for values of the expected type only, as under `Configuration.StrAt`.
- Configuration.Config.LoadFromFile: a value of an unexpected type keeps the previous setting, as under `Configuration.StrAt`.
- Configuration.Config.Load: inherits the typed reading of `Configuration.StrAt`.
- Backup.PhotoTarget: a truthy `urls` that is not an object raises in the model. In the source, `size in urls` tests membership in a list or a string and raises only for other types.
- Migrate.RunFullMigration: `athletes` is given with the layout. It stands for the `athl=` directories `iter_athlete_dirs` yields once the prefix renames are done; the model does not derive it from `listing`, because `iter_athlete_dirs` (models/athlete.py) is not part of this model.
- MykrokMigrate.RunFullMigration: `l.athletes` stands for the athlete directories `iter_athlete_dirs` yields after the legacy renames of step 4; they are not derived from the listing, for the reason given under `Migrate.RunFullMigration`.
- MykrokMigrate.CompleteMigration: `athletes` stands for the athlete directories after the renames, as under `MykrokMigrate.RunFullMigration`.
- MapView.FindPhotoFile: the names are taken to be the regular files of the photos directory; the `is_file()` test is not modelled.
- MykrokMigrate.IsWordChar: the `\b` word boundary counts ASCII letters, digits and `_` as word characters, whereas Python's `re` counts all Unicode word characters.
- `capture_screenshots`, `start_server`, `main` and `generate_demo_data` of scripts/generate_screenshots.py are Playwright and subprocess I/O, not modelled.
- Cli.Context.Configure: a `load_config` that raises is modelled as no settings plus the error text, rather than as an exception that escapes the group command.
- State.ExportLedger.AppendEntries requires an empty ledger, because `from_dict` calls it only on a fresh ledger.
- Migrate.RunFullMigration: each directory listing has distinct names (`DistinctNames`), as a real file system guarantees.
- Screenshots.HeadingIffMatch: stated on the lines after the fixed header, not on the whole section. Screenshots.LineFrom is stated on the same lines.
- The `gpx`, `view`, `stats`, `map`, `browse` and `export` commands of cli.py, apart from the `fittrackee` decisions, and `ensure_data_dir` are not part of this model.
- datalad.py, lib/logging.py, the FitTrackee exporter and the package entry points are not part of this model.

## Findings

| source | as written | input that shows it | evidently intended | confidence | as-written member | corrected member |
|---|---|---|---|---|---|---|
| src/mykrok/services/migrate.py:334-351 | the dry run reports moving `.strava-backup.toml` because `.mykrok/config.toml` does not exist yet; in the real run, moving the directory first creates that file, so the file move is skipped | a root with `.strava-backup.toml` and a `.strava-backup/` directory that holds `config.toml` | a dry run reports exactly the moves the real run makes | high (not executed) | MykrokMigrate.DryRunReportsSkippedFileMove | MykrokMigrate.FixedDryRunReportsRealMoves |
| src/strava_backup/config.py:275-276 | strings are written between double quotes without escaping, so a backslash or a quote in a saved value makes the written TOML unreadable or a different string | the strings `C:\data` and `a"b` | strings escaped as TOML basic strings, so each one reads back as itself | high (not executed) | Configuration.UnescapedStringsBreak | Configuration.FormatValueReadsBack |
| src/strava_backup/views/browser.py:87-112 | the photo file name taken from the URL is joined to the photos directory unchecked, so `..` components or a leading `/` reach files outside it | `/photos/alice/20240101T080000/../../../../../etc/passwd` and `/photos/alice/20240101T080000//etc/passwd` | only files inside the session's photos directory are served | medium (not executed) | Browser.PhotoPathEscapes | Browser.SafeFilenameStaysInside |
| src/strava_backup/views/map.py:741-744 | the step `len(points) // 50000` rounds down, so between 50001 and 99999 points the step is 1 and every point is kept | 99999 heat points | at most 50000 points kept (step rounded up) | medium (not executed) | MapView.SampleAsWrittenKeepsTooMany | MapView.SampleBounded |
