# TogglSync core, modelled in Dafny

TogglSync copies the time entries that a user logged in Toggl into an issue
tracker (Redmine or Jira), and reports the day's work to a Mattermost channel.
This project models the two parts of it that the repository's tests pin down.

**The reconciliation engine (`Synchronizer`).**
- `start(days)` fetches the Toggl entries once and drops the running ones. Running entries carry a negative duration.
- It groups the remaining entries by the issue id written as `#<digits>` in their description.
- For each issue, it fetches the tracker's entries of that issue once. For each Toggl entry it then does exactly one of three things:
  - it creates (`put`) a tracker entry when no fetched entry carries the tag `[toggl#<id>]`;
  - it updates the tagged entry, by the tracker's own id, when that entry is not `_equal` to the Toggl entry;
  - it leaves the tagged entry alone when it is equal.
- Entries are `_equal` when they have the same whole minutes, the same start, and the comment `<description> [toggl#<id>]`.
- Redmine receives the day of the start and `seconds / 3600` hours. Jira receives the start instant and the seconds.

**The Mattermost notifier (`MattermostNotifier`).** It is a buffer of lines:
- `append`, `appendDuration`, `appendEntries` and the private summary writers extend the buffer;
- `send` hands the lines, joined by newlines, to a runner.

The notifier formats durations (`formatSeconds`), filters entries by day and by issue id, and sums the time per issue. It then lists the three issues with the most time, largest first.

Modules:
- `Wrappers`, `Time`, `Text`, `Seqs`: option type, parsed timestamps, decimal digits, filtering.
- `IssueTag`: `#<digits>` issue ids and `[toggl#<id>]` tags.
- `Entries`: Toggl entries and tracker entries.
- `Equality`: `_equal`.
- `Grouping`: `groupTogglByIssueId`, `groupDestinationByIssueId`, `groupRedmineByIssueId`.
- `Destination`: the tracker, as a class `Tracker` with a store and a call log.
- `Toggl`: the Toggl source, as a class `TogglSource`.
- `Synchronizer`: the run, as functions, plus the class `Synchronizer` whose loops are proved to agree with them.
- `Idempotence` and `SyncProperties`: properties of runs.
- `Mattermost`: the notifier, as functions, plus the classes `Notifier` and `Runner`.
- `GroupingScenarios`, `SyncScenarios`, `MattermostScenarios`: the repository's test cases, stated as lemmas and methods.

The repository's implementation modules are not part of this model. The behaviour modelled is the behaviour that its tests assert, and each row below cites the test closest to what it states. Where a choice was needed that no test decides, it is listed under "## Left out".

## Model

| member | source | states |
|---|---|---|
| IssueTag.FindIssueId | togglsync/tests/synchronizer_redmine_tests.py:55-82 | an issue id found in a description is a non-empty run of digits |
| IssueTag.FindIssueIdSpec | togglsync/tests/synchronizer_redmine_tests.py:55-82 | no id exactly when no `#` is followed by a digit; otherwise the id is the whole digit run after the leftmost such `#` |
| IssueTag.IssueIdAtStart | togglsync/tests/synchronizer_jira_tests.py:52-79 | `#<digits>` at the start of a description, followed by a non-digit or nothing, yields those digits |
| IssueTag.IssueIdAfter | togglsync/tests/synchronizer_redmine_tests.py:216-259 | text without `#` in front of a description does not change its issue id |
| IssueTag.NoIssueWithoutHash | togglsync/tests/mattermost_tests.py:320-332 | a description without `#` names no issue |
| IssueTag.ParseTogglTag | togglsync/tests/synchronizer_redmine_tests.py:84-104 | a Toggl tag is only read from a text that holds `[` and is long enough for `[toggl#<d>]` |
| IssueTag.ParseTogglTagFinds | togglsync/tests/synchronizer_redmine_tests.py:84-104 | no tag is read exactly when no complete `[toggl#<digits>]` starts anywhere in the text |
| IssueTag.ParseTogglTagLeftmost | togglsync/tests/synchronizer_redmine_tests.py:84-104 | the tag read is the complete tag that starts leftmost |
| IssueTag.TaggedCommentsReadBack | togglsync/tests/synchronizer_redmine_tests.py:106-137 | any comment `<description> [toggl#<id>]` whose description has no tag of its own reads back as `<id>` |
| IssueTag.TagHereTogglTag | togglsync/tests/synchronizer_redmine_tests.py:84-104 | the tag `[toggl#<id>]` reads back as its id |
| IssueTag.TagHereExtend | togglsync/tests/synchronizer_redmine_tests.py:84-104 | text after a space cannot change a tag that is already complete |
| IssueTag.CommentTagRoundTrip | togglsync/tests/synchronizer_redmine_tests.py:106-137 | the comment `<description> [toggl#<id>]` written for an entry reads back as the entry's id, when the description carries no tag of its own |
| Entries.Completed | togglsync/tests/synchronizer_redmine_tests.py:216-259 | the finished entries are exactly those with a non-negative duration, no more of them than given, and all of them when none is running |
| Entries.TogglIdOf | togglsync/tests/synchronizer_redmine_tests.py:84-104 | a tracker comment without `[` carries no Toggl id; a comment written as `<description> [toggl#<id>]` carries `<id>` |
| Entries.CompletedSkipsRunning | togglsync/tests/synchronizer_redmine_tests.py:216-259 | a running entry is absent from the finished entries, wherever it stands |
| Equality.StartMatches | togglsync/tests/synchronizer_jira_tests.py:299-305 | a start matches a Redmine day when it falls on that day, and a Jira start when date, hour and minute agree |
| Equality.StartMatchesIgnoresSeconds | togglsync/tests/synchronizer_jira_tests.py:299-305 | the seconds of the Toggl start never decide whether the starts match |
| Equality.Equal | togglsync/tests/synchronizer_jira_tests.py:276-313 | equal entries have a start on the tracker entry's day, the Toggl seconds are within 30 seconds of the tracker entry's whole minutes, and, when the description carries no tag of its own, the tracker comment carries the Toggl id; the tracker entry Jira would write for an entry is equal to it |
| Equality.RoundHalfEven | togglsync/tests/synchronizer_jira_tests.py:283-289 | Python's `round`: within one half of the argument, and even on a tie |
| Equality.RoundHalfEvenUnique | togglsync/tests/synchronizer_jira_tests.py:283-289 | the integer within one half, even on a tie, is the rounded value |
| Equality.SourceMinutesBucket | togglsync/tests/synchronizer_jira_tests.py:283-289 | `60m + r` seconds count as `m` minutes when `r` is under 30 seconds, and also at exactly 30 seconds when `m` is even (3630 s is 60 minutes) |
| Equality.SourceMinutesApart | togglsync/tests/synchronizer_jira_tests.py:291-297 | durations more than a minute apart count as different minutes |
| Equality.HoursMinutes | togglsync/tests/synchronizer_redmine_tests.py:175-214 | `seconds / 3600` hours on Redmine count as the same minutes as the seconds themselves |
| Grouping.GroupIntoWellFormed | togglsync/tests/synchronizer_redmine_tests.py:55-82 | grouping keeps every key once, each with a group |
| Grouping.GroupIntoKeyOrder | togglsync/tests/synchronizer_redmine_tests.py:55-82 | grouping more items keeps the keys already present, then adds the new keys in the order an item first names them |
| Grouping.GroupByKeys | togglsync/tests/synchronizer_redmine_tests.py:55-82 | the keys of a grouping are the keys of the items in order of first occurrence, each once |
| Grouping.MinusMinus | togglsync/tests/synchronizer_redmine_tests.py:55-82 | leaving out two sets of keys one after the other leaves out their union |
| Grouping.GroupIntoContents | togglsync/tests/synchronizer_redmine_tests.py:55-82 | each group grows by exactly the added items with that key, in order |
| Grouping.GroupIntoKeys | togglsync/tests/synchronizer_redmine_tests.py:55-82 | a key has a group exactly when some item carries it |
| Grouping.GroupIntoAppend | togglsync/tests/synchronizer_redmine_tests.py:55-82 | grouping two lists one after the other is grouping their concatenation |
| Grouping.GroupByPartition | togglsync/tests/synchronizer_redmine_tests.py:55-82 | grouping is a partition: its keys are exactly the item keys, and each group is the items with that key in input order |
| Grouping.GroupBySkipsUnkeyed | togglsync/tests/mattermost_tests.py:38-51 | an item without a key changes no group |
| Grouping.GroupRunExisting | togglsync/tests/synchronizer_jira_tests.py:52-79 | a run of items with an existing key extends that group only |
| Grouping.GroupRunNew | togglsync/tests/synchronizer_jira_tests.py:52-79 | a run of items with a new key adds that key last, with the run as its group |
| Grouping.GroupTwoRuns | togglsync/tests/synchronizer_redmine_tests.py:84-104 | two runs with distinct keys give two groups, in order |
| Grouping.GroupThreeRuns | togglsync/tests/synchronizer_redmine_tests.py:55-82 | three runs with distinct keys give three groups, in order |
| Grouping.GroupFourRuns | togglsync/tests/mattermost_tests.py:292-318 | four runs with distinct keys give four groups, in order |
| Grouping.GroupTogglByIssueId | togglsync/tests/synchronizer_jira_tests.py:52-79 | `groupTogglByIssueId` lists the issue ids in the order an entry first names them |
| Grouping.GroupTogglPartition | togglsync/tests/synchronizer_redmine_tests.py:55-82 | `groupTogglByIssueId` is a partition by issue id: keys are the ids that occur, and each group lists that id's entries in input order |
| Grouping.GroupDestinationByIssueId | togglsync/tests/synchronizer_redmine_tests.py:84-104 | `groupDestinationByIssueId` is a partition keyed by the issue field written as a string |
| Grouping.GroupRedmineByIssueId | togglsync/tests/synchronizer_jira_tests.py:81-101 | `groupRedmineByIssueId` is a partition keyed by the raw issue value |
| GroupingScenarios.TaggedIssue | togglsync/tests/synchronizer_redmine_tests.py:55-82 | an entry described `#<n>` has issue id `<n>` |
| GroupingScenarios.GroupFiveEntries | togglsync/tests/synchronizer_jira_tests.py:52-79 | entries with ids `15, 16, 16, 16, 17` group as `15 → [1]`, `16 → [2, 3, 4]`, `17 → [5]` |
| GroupingScenarios.GroupTogglEntries | togglsync/tests/synchronizer_redmine_tests.py:55-82 | the five test entries group into keys `"15", "16", "17"`, with sizes 1, 3 and 1 in input order |
| GroupingScenarios.LoggedTag | togglsync/tests/synchronizer_redmine_tests.py:84-104 | a tracker entry whose comment ends in `[toggl#<n>]` exposes Toggl id `<n>` |
| GroupingScenarios.GroupFourByIssueKey | togglsync/tests/synchronizer_redmine_tests.py:84-104 | entries of issues 1, 2, 2, 2 group under the strings `"1"` and `"2"` |
| GroupingScenarios.GroupFourByRawIssue | togglsync/tests/synchronizer_jira_tests.py:81-101 | entries of issues 1, 2, 2, 2 group under the integers 1 and 2 |
| GroupingScenarios.GroupDestinationEntries | togglsync/tests/synchronizer_redmine_tests.py:84-104 | the test's four tracker entries group as `"1" → 1 entry` and `"2" → 3 entries`, with Toggl ids 22, 23 and 24 |
| GroupingScenarios.GroupWorklogEntries | togglsync/tests/synchronizer_jira_tests.py:81-101 | the test's four worklogs group under the integer keys 1 and 2, with Toggl ids 22, 23 and 24 |
| Destination.OfIssue | togglsync/tests/synchronizer_redmine_tests.py:23-53 | `get(issueId)` returns exactly the stored entries of that issue |
| Destination.ReviseById | togglsync/tests/synchronizer_redmine_tests.py:175-214 | `update(id, …)` revises exactly the entries with that id and leaves the others as they were |
| Destination.OfIssueAppend | togglsync/tests/synchronizer_redmine_tests.py:106-137 | a new entry appears in `get` of its own issue only, at the end |
| Destination.OfIssueRevise | togglsync/tests/synchronizer_redmine_tests.py:175-214 | an update that keeps the issue changes `get` of that issue only |
| Destination.ReviseByIdConcat | togglsync/tests/synchronizer_redmine_tests.py:175-214 | revising by id works entry by entry |
| Destination.PutFreshIds | togglsync/tests/synchronizer_redmine_tests.py:106-137 | `put` keeps tracker ids unique and below the next fresh id |
| Destination.UpdateFreshIds | togglsync/tests/synchronizer_redmine_tests.py:175-214 | `update` keeps tracker ids unique and below the next fresh id |
| Destination.Tracker.constructor | togglsync/tests/synchronizer_redmine_tests.py:106-137 | a tracker starts with the given entries and an empty call log |
| Destination.Tracker.Get | togglsync/tests/synchronizer_redmine_tests.py:23-53 | `get` returns the issue's entries and logs the call, changing nothing else |
| Destination.Tracker.Put | togglsync/tests/synchronizer_redmine_tests.py:106-137 | `put` stores a new entry with a fresh id and logs the call |
| Destination.Tracker.Update | togglsync/tests/synchronizer_redmine_tests.py:175-214 | `update` revises the entry with the given id and logs the call |
| Toggl.TogglSource.constructor | togglsync/tests/synchronizer_redmine_tests.py:13-21 | a Toggl source holds its entries and has had no request |
| Toggl.TogglSource.Get | togglsync/tests/synchronizer_redmine_tests.py:13-21 | `get(days)` returns the entries and records the number of days requested |
| Synchronizer.PayloadOf | togglsync/tests/synchronizer_jira_tests.py:103-134 | what is written for an entry: its issue and tagged comment, a start that matches, the same whole minutes; Redmine gets the day and `seconds / 3600` hours, Jira the instant and the seconds |
| Synchronizer.FirstTagged | togglsync/tests/synchronizer_redmine_tests.py:139-173 | no match exactly when no fetched entry carries the Toggl id's tag; otherwise a fetched entry carrying it |
| Synchronizer.SyncEntry | togglsync/tests/synchronizer_redmine_tests.py:106-214 | one Toggl entry: fails, changing nothing, exactly when it has no start; otherwise logs at most one call, none exactly when the tagged tracker entry is equal, else a `put` of its payload when no entry is tagged and an `update` of the tagged entry's id otherwise |
| Synchronizer.SyncEntries | togglsync/tests/synchronizer_redmine_tests.py:106-137 | an issue's entries succeed exactly when all have a start, and add at most one call each to the log |
| Synchronizer.SyncIssue | togglsync/tests/synchronizer_redmine_tests.py:23-53 | one issue: the log grows by one `get` of the issue, then at most one write per entry; it succeeds exactly when all its entries have a start |
| Synchronizer.SyncIssues | togglsync/tests/synchronizer_redmine_tests.py:216-259 | a strict run records at most one failed issue |
| Synchronizer.SyncIssuesFailures | togglsync/tests/synchronizer_redmine_tests.py:216-259 | the issues recorded as failed are issues of the run with an entry without a start; a lenient run records every such issue |
| Synchronizer.IssueGroupsFailures | togglsync/tests/synchronizer_redmine_tests.py:216-259 | an issue has an unstartable finished entry exactly when its group in the run holds an entry without a start |
| Synchronizer.SyncRun | togglsync/tests/synchronizer_redmine_tests.py:216-259 | a run only reports issues with a finished entry without a start, at most one when strict, and every such issue when lenient |
| Synchronizer.IssueGroups | togglsync/tests/synchronizer_redmine_tests.py:216-259 | the issue groups of a run are well formed |
| Synchronizer.IssueGroupsPartition | togglsync/tests/synchronizer_redmine_tests.py:216-259 | a run's issues are exactly those of its finished entries, in the order a finished entry first names them, and each issue's group lists its finished entries in fetch order |
| Synchronizer.SyncEntriesUnfold | togglsync/tests/synchronizer_redmine_tests.py:106-137 | the entries of an issue are processed first to last, stopping at one that fails |
| Synchronizer.SyncIssuesUnfold | togglsync/tests/synchronizer_redmine_tests.py:216-259 | issues are processed in order; a failed issue is recorded and, in strict mode, ends the run |
| Synchronizer.Synchronizer.constructor | togglsync/tests/synchronizer_redmine_tests.py:13-21 | the engine holds its tracker, its Toggl source and its error mode |
| Synchronizer.Synchronizer.Start | togglsync/tests/synchronizer_redmine_tests.py:13-21 | `start(days)` asks Toggl once for `days`, and leaves the tracker and the failed issues exactly as the run function says |
| Synchronizer.Synchronizer.ProcessIssue | togglsync/tests/synchronizer_redmine_tests.py:175-214 | processing one issue (one `get`, then `put`/`update` per entry) does what the per-issue function says |
| Idempotence.FirstTaggedAppend | togglsync/tests/synchronizer_redmine_tests.py:106-137 | a new entry becomes the match for a Toggl id only when nothing earlier carried its tag |
| Idempotence.FirstTaggedRevise | togglsync/tests/synchronizer_redmine_tests.py:175-214 | an update that keeps tags keeps every match, revised in place |
| Idempotence.UniqueIdsSame | togglsync/tests/synchronizer_redmine_tests.py:175-214 | with unique tracker ids, an id names one entry |
| Idempotence.PutEstablishes | togglsync/tests/synchronizer_redmine_tests.py:106-137 | after `put`, the entry's tagged match is equal to it; other entries' matches and other issues are unchanged |
| Idempotence.UpdateEstablishes | togglsync/tests/synchronizer_redmine_tests.py:175-214 | after `update`, the entry's tagged match is equal to it; other entries' matches and other issues are unchanged |
| Idempotence.SyncEntryEstablishes | togglsync/tests/synchronizer_redmine_tests.py:139-173 | processing a writable entry succeeds and leaves its tagged match equal to it, whichever of the three cases applied |
| Idempotence.InjectiveSplit | togglsync/tests/synchronizer_redmine_tests.py:216-259 | with distinct Toggl ids, the first entry's id is not among the others |
| Idempotence.SyncEntriesStep | togglsync/tests/synchronizer_redmine_tests.py:106-137 | one processed entry keeps the conditions for the rest of the issue |
| Idempotence.SyncEntriesTransfer | togglsync/tests/synchronizer_redmine_tests.py:106-137 | the rest of the issue being in sync carries back over one step |
| Idempotence.SyncEntriesEstablish | togglsync/tests/synchronizer_redmine_tests.py:106-137 | processing an issue leaves every one of its entries in sync |
| Idempotence.SyncIssuesEstablish | togglsync/tests/synchronizer_redmine_tests.py:216-259 | processing all issues fails none and leaves every entry of every issue in sync |
| Idempotence.Fetches | togglsync/tests/synchronizer_redmine_tests.py:216-259 | one `get` per issue, in issue order |
| Idempotence.SyncEntriesInSync | togglsync/tests/synchronizer_redmine_tests.py:139-173 | an issue whose entries are all in sync is processed without a write |
| Idempotence.KeysInSyncTail | togglsync/tests/synchronizer_redmine_tests.py:139-173 | being in sync holds for the first issue and for the remaining ones |
| Idempotence.FetchesCons | togglsync/tests/synchronizer_redmine_tests.py:216-259 | the fetches of the issues are the first issue's `get` followed by those of the rest |
| Idempotence.SyncIssuesInSync | togglsync/tests/synchronizer_redmine_tests.py:139-173 | issues that are all in sync cause one `get` each and no `put` or `update` |
| Idempotence.Idempotent | togglsync/tests/synchronizer_redmine_tests.py:139-173 | a run over writable entries with distinct ids fails no issue, and a second run over the same entries only fetches: no `put`, no `update`, the store unchanged |
| SyncProperties.PendingEntryIgnored | togglsync/tests/synchronizer_redmine_tests.py:216-259 | a running entry, anywhere in the fetched list, changes nothing about a run |
| SyncProperties.UnkeyedEntryIgnored | togglsync/tests/synchronizer_jira_tests.py:215-258 | an entry without an issue id, anywhere in the fetched list, changes nothing about a run |
| SyncProperties.CompletedAround | togglsync/tests/synchronizer_redmine_tests.py:216-259 | a finished entry stays in place among the finished entries |
| SyncProperties.IssuesFetched | togglsync/tests/synchronizer_redmine_tests.py:23-53 | the issues fetched, in call order, are exactly the `get` calls of the log |
| SyncProperties.IssuesFetchedAppend | togglsync/tests/synchronizer_redmine_tests.py:23-53 | the fetches of two logs in a row are those of the first, then those of the second |
| SyncProperties.IssuesFetchedNone | togglsync/tests/synchronizer_redmine_tests.py:106-137 | a log of writes only fetches nothing |
| SyncProperties.SyncEntriesCalls | togglsync/tests/synchronizer_redmine_tests.py:106-137 | processing an issue's entries only appends to the log, and only `put`s and `update`s for that issue and its entries |
| SyncProperties.GetThenWrites | togglsync/tests/synchronizer_redmine_tests.py:23-53 | a `get` followed by writes fetches exactly that one issue |
| SyncProperties.SyncIssueCalls | togglsync/tests/synchronizer_redmine_tests.py:216-259 | processing an issue logs one `get` of that issue first, then only writes for its entries |
| SyncProperties.SyncIssueFetches | togglsync/tests/synchronizer_redmine_tests.py:216-259 | processing an issue fetches exactly that issue once |
| SyncProperties.FetchedAfter | togglsync/tests/synchronizer_redmine_tests.py:216-259 | the fetches of a longer log continue those of its prefix |
| SyncProperties.SyncIssuesCallOrigins | togglsync/tests/synchronizer_jira_tests.py:215-258 | every call a run of issues makes belongs to one of those issues and its entries |
| SyncProperties.SyncIssuesFetchOrder | togglsync/tests/synchronizer_jira_tests.py:215-258 | issues are fetched once each, in order; all of them unless a strict run stopped |
| SyncProperties.FetchOrderStep | togglsync/tests/synchronizer_jira_tests.py:215-258 | the fetch order of one issue and of the rest combine |
| SyncProperties.SyncRunCalls | togglsync/tests/synchronizer_redmine_tests.py:216-259 | a run only appends calls that come from finished entries with an issue id, and fetches each such issue once, in the order a finished entry first names it (`FirstKeys` of the finished entries), unless a strict run stopped |
| SyncProperties.CallsFromFinished | togglsync/tests/synchronizer_redmine_tests.py:216-259 | a call from a run's issue groups comes from a finished entry |
| SyncScenarios.HardWorkIssue | togglsync/tests/synchronizer_redmine_tests.py:106-137 | `#987 hard work` names issue `"987"` |
| SyncScenarios.HardWorkComment | togglsync/tests/synchronizer_redmine_tests.py:106-137 | its comment is `#987 hard work [toggl#17]` |
| SyncScenarios.RedmineCreatesMissingEntry | togglsync/tests/synchronizer_redmine_tests.py:106-137 | with no Redmine entries, the run makes one `get("987")` and one `put` with spent on 2016-01-01, 1.0 hours and the tagged comment |
| SyncScenarios.TestWorkIssue | togglsync/tests/synchronizer_redmine_tests.py:216-259 | `test #333` names issue `"333"` |
| SyncScenarios.TestWorkComment | togglsync/tests/synchronizer_redmine_tests.py:216-259 | its comment is `test #333 [toggl#777]` |
| SyncScenarios.Recorded222Tag | togglsync/tests/synchronizer_redmine_tests.py:139-173 | the recorded Redmine entry 222 carries Toggl id 17 |
| SyncScenarios.NothingToSync | togglsync/tests/synchronizer_redmine_tests.py:13-21 | a run over no entries makes no call and fails nothing |
| SyncScenarios.Recorded222Equal | togglsync/tests/synchronizer_redmine_tests.py:139-173 | the Toggl entry and Redmine entry 222 are equal, although the creation time differs |
| SyncScenarios.SingleEntryRun | togglsync/tests/synchronizer_redmine_tests.py:106-137 | a run over one finished entry with an issue is one `get` of that issue, then the entry's step |
| SyncScenarios.RedmineLeavesRecordedEntry | togglsync/tests/synchronizer_redmine_tests.py:139-173 | an equal recorded entry leads to a `get` and neither `put` nor `update` |
| SyncScenarios.Recorded222Stale | togglsync/tests/synchronizer_redmine_tests.py:175-214 | entry 222 is the match for Toggl id 17 but is not equal to the two-hour entry |
| SyncScenarios.RedmineUpdatesModifiedEntry | togglsync/tests/synchronizer_redmine_tests.py:175-214 | a changed duration leads to one `get` and one `update` of entry 222 with 2.0 hours, and no `put` |
| SyncScenarios.RedmineIgnoresRunningEntry | togglsync/tests/synchronizer_redmine_tests.py:216-259 | with a running entry present, the strict run makes only `get("333")` and one `put` for Toggl id 777 |
| SyncScenarios.Issue333Key | togglsync/tests/synchronizer_redmine_tests.py:23-53 | the integer issue 333 is fetched as the string `"333"` |
| SyncScenarios.Recorded777Equal | togglsync/tests/synchronizer_redmine_tests.py:23-53 | the Redmine entry spent on the day of the start, with the same hours and comment, is equal to the Toggl entry |
| SyncScenarios.RedmineSingleDayRecorded | togglsync/tests/synchronizer_redmine_tests.py:23-53 | the run makes one `get("333")` and no write |
| SyncScenarios.JiraCreatesMissingEntry | togglsync/tests/synchronizer_jira_tests.py:103-134 | with no worklogs, the run makes one `get("987")` and one `put` with the full start instant, 3600 seconds and the tagged comment |
| SyncScenarios.Worklog222Tag | togglsync/tests/synchronizer_jira_tests.py:174-213 | worklog 222 carries Toggl id 17 |
| SyncScenarios.HardWorkTwoHours | togglsync/tests/synchronizer_jira_tests.py:174-213 | the two-hour entry is finished, names issue `"987"` and keeps its comment |
| SyncScenarios.Worklog222Stale | togglsync/tests/synchronizer_jira_tests.py:174-213 | worklog 222 is the match for Toggl id 17 but is not equal to the two-hour entry |
| SyncScenarios.JiraUpdatesModifiedEntry | togglsync/tests/synchronizer_jira_tests.py:174-213 | a changed duration leads to one `get` and one `update` of worklog 222 with 7200 seconds and the same start and comment |
| SyncScenarios.JiraIgnoresRunningEntry | togglsync/tests/synchronizer_jira_tests.py:215-258 | with a running entry present, the run makes only `get("333")` and one `put` for Toggl id 777 |
| SyncScenarios.PairedComment | togglsync/tests/synchronizer_jira_tests.py:260-274 | the paired Toggl entry's comment is `test #333 [toggl#777]` |
| SyncScenarios.PairEqual | togglsync/tests/synchronizer_jira_tests.py:276-281 | the pair is equal; the `.000` notation of the worklog's start is absorbed by parsing |
| SyncScenarios.PairEqualWithinRounding | togglsync/tests/synchronizer_jira_tests.py:283-289 | 30 more seconds on the Toggl side still count as equal |
| SyncScenarios.PairDiffersInDuration | togglsync/tests/synchronizer_jira_tests.py:291-297 | 120 seconds against 3600 is not equal |
| SyncScenarios.PairDiffersInStart | togglsync/tests/synchronizer_jira_tests.py:299-305 | another start is not equal |
| SyncScenarios.PairStartToTheMinute | togglsync/tests/synchronizer_jira_tests.py:299-305 | a start 59 seconds into the same minute is still equal; another minute is not |
| SyncScenarios.PairDiffersInComment | togglsync/tests/synchronizer_jira_tests.py:307-313 | another description, and so another comment, is not equal |
| Mattermost.CentiHours | togglsync/tests/mattermost_tests.py:159-160 | the hundredths of an hour are within 18 seconds of the duration, and even on a tie |
| Mattermost.CentiHoursRounds | togglsync/tests/mattermost_tests.py:78-91 | they are Python's `round(seconds / 3600, 2)`, in hundredths |
| Mattermost.FixedCenti | togglsync/tests/mattermost_tests.py:159-160 | two decimals are always written |
| Mattermost.FixedCentiRoundTrip | togglsync/tests/mattermost_tests.py:93-111 | the two-decimal text reads back as the same hundredths |
| Mattermost.ShortCenti | togglsync/tests/mattermost_tests.py:265-290 | the short form starts with a digit and ends in `0` only for a whole number (`4.0`) |
| Mattermost.ShortCentiRoundTrip | togglsync/tests/mattermost_tests.py:265-290 | the short text (`0.5`, `4.0`, `0.02`) reads back as the same hundredths |
| Mattermost.OneDecimalRoundTrip | togglsync/tests/mattermost_tests.py:265-290 | a one-decimal text reads back as the same hundredths |
| Mattermost.SignedCentiSign | togglsync/tests/mattermost_tests.py:265-290 | the amount starts with `-` exactly when it is negative |
| Mattermost.FormatSeconds | togglsync/tests/mattermost_tests.py:153-160 | `formatSeconds` ends in ` s` below 60 seconds, ` m` below an hour, ` h` otherwise |
| Mattermost.FormatSecondsReadBack | togglsync/tests/mattermost_tests.py:153-160 | the number read back is the seconds, the whole minutes or the hours to within half a hundredth |
| Mattermost.DurationLine | togglsync/tests/mattermost_tests.py:194-228 | `appendDuration` writes `Sync: ` and ends in `s` exactly when the count is not 1 |
| Mattermost.DurationLineReadBack | togglsync/tests/mattermost_tests.py:194-228 | the number after `Sync: ` reads back as the number of days |
| Mattermost.FoundLine | togglsync/tests/mattermost_tests.py:25-36 | the found line starts with the found prefix and ends with the `(filtered: …)` part |
| Mattermost.FilteredPartReadBack | togglsync/tests/mattermost_tests.py:230-263 | the number after the filtered prefix reads back as the filtered count |
| Mattermost.FoundLineReadBack | togglsync/tests/mattermost_tests.py:25-36 | the found line reads back as the number of entries found |
| Mattermost.WorkLines | togglsync/tests/mattermost_tests.py:25-36 | no entries give the fixed "did not work today" line; otherwise three lines, the first about their total seconds and its `formatSeconds` text |
| Mattermost.FilterToday | togglsync/tests/mattermost_tests.py:162-179 | keeps exactly the entries that started today; nothing for no list at all |
| Mattermost.FilterWithIssueId | togglsync/tests/mattermost_tests.py:181-192 | keeps exactly the entries whose description names an issue |
| Mattermost.FilterWithIssueIdCounts | togglsync/tests/mattermost_tests.py:181-192 | each entry with an issue is kept as often as it occurs, each entry without one dropped |
| Mattermost.IssueTotals | togglsync/tests/mattermost_tests.py:265-290 | one total per issue, in the order an entry first names the issue |
| Mattermost.IssueTotalsSums | togglsync/tests/mattermost_tests.py:265-290 | one total per issue, each the sum of the seconds of that issue's entries |
| Mattermost.IssueTotalsCover | togglsync/tests/mattermost_tests.py:265-290 | an issue has a total exactly when one of the entries names it |
| Mattermost.Insert | togglsync/tests/mattermost_tests.py:292-318 | inserting adds one total |
| Mattermost.InsertCount | togglsync/tests/mattermost_tests.py:292-318 | inserting adds exactly the given total |
| Mattermost.InsertMembers | togglsync/tests/mattermost_tests.py:292-318 | an inserted list holds only the new total and the old ones |
| Mattermost.InsertSorted | togglsync/tests/mattermost_tests.py:292-318 | inserting into a list sorted largest first keeps it sorted |
| Mattermost.SortDesc | togglsync/tests/mattermost_tests.py:292-318 | sorting keeps the length |
| Mattermost.SortDescSorted | togglsync/tests/mattermost_tests.py:292-318 | the totals sorted are in descending order and a permutation of the input |
| Mattermost.InsertTies | togglsync/tests/mattermost_tests.py:292-318 | inserting puts the new total ahead of the totals equal to it |
| Mattermost.SortDescStable | togglsync/tests/mattermost_tests.py:292-318 | totals with equal time keep their relative order |
| Mattermost.TopIssues | togglsync/tests/mattermost_tests.py:292-318 | at most three totals, largest first, all taken from the per-issue totals |
| Mattermost.TopIssuesDominate | togglsync/tests/mattermost_tests.py:292-318 | no issue left out has more time than one listed |
| Mattermost.TopIssueLine | togglsync/tests/mattermost_tests.py:265-290 | a summary line starts `- #<issue>: ` and ends ` h` |
| Mattermost.TopIssueLineReadBack | togglsync/tests/mattermost_tests.py:265-290 | a summary line is `- #<issue>: <hours> h`, and the hours read back as the rounded hundredths |
| Mattermost.TopIssueLines | togglsync/tests/mattermost_tests.py:265-290 | one line per listed issue |
| Mattermost.TopIssueLineAt | togglsync/tests/mattermost_tests.py:265-290 | the line at a position is the line of the issue at that position |
| Mattermost.IssueSummaryLines | togglsync/tests/mattermost_tests.py:265-332 | the issue summary is empty, or the three header lines, one to three issue lines and a closing empty line |
| Mattermost.IssueSummaryContent | togglsync/tests/mattermost_tests.py:265-290 | a non-empty issue summary is the three header lines, one line per listed issue, and an empty line |
| Mattermost.IssueSummaryEmpty | togglsync/tests/mattermost_tests.py:320-332 | the issue summary is empty exactly when no entry names an issue |
| Mattermost.EntriesLines | togglsync/tests/mattermost_tests.py:230-263 | `appendEntries` begins with the count of all entries and of the finished entries that name an issue |
| Mattermost.ReportLines | togglsync/tests/mattermost_tests.py:25-36 | the report after the found line is the summary lines, then an empty line, then the issue summary lines |
| Mattermost.EntriesIgnoreRunning | togglsync/tests/mattermost_tests.py:230-263 | a running entry only raises the found count; the filtered count, the worked time and the issue summary do not change |
| Mattermost.Runner.constructor | togglsync/tests/mattermost_tests.py:16-23 | a runner starts with nothing sent |
| Mattermost.Runner.Send | togglsync/tests/mattermost_tests.py:16-23 | the runner records the text it is handed |
| Mattermost.Notifier.constructor | togglsync/tests/mattermost_tests.py:16-23 | a notifier starts with an empty buffer |
| Mattermost.Notifier.Append | togglsync/tests/mattermost_tests.py:16-23 | `append` adds one line at the end of the buffer |
| Mattermost.Notifier.AppendAll | togglsync/tests/mattermost_tests.py:265-290 | the lines are added one by one, in order |
| Mattermost.Notifier.AppendDuration | togglsync/tests/mattermost_tests.py:194-228 | `appendDuration` adds the duration line |
| Mattermost.Notifier.AppendEntries | togglsync/tests/mattermost_tests.py:230-263 | `appendEntries` adds the found line, the summary, an empty line and the issue summary |
| Mattermost.Notifier.AppendSummary | togglsync/tests/mattermost_tests.py:78-91 | the summary writer adds the summary lines |
| Mattermost.Notifier.AppendIssueSummary | togglsync/tests/mattermost_tests.py:265-290 | the issue summary writer adds the issue summary, nothing when no entry names an issue |
| Mattermost.Notifier.AppendTopLines | togglsync/tests/mattermost_tests.py:265-290 | adds the line of each listed issue, in order |
| Mattermost.Notifier.Send | togglsync/tests/mattermost_tests.py:16-23 | `send` hands the joined buffer to the runner once |
| MattermostScenarios.MinutesText | togglsync/tests/mattermost_tests.py:156-157 | seconds within minute `m` are written `m m` |
| MattermostScenarios.HoursText | togglsync/tests/mattermost_tests.py:159-160 | an hour or more, within 18 seconds of `c` hundredths, is written with `c` in two decimals |
| MattermostScenarios.FormatSecondsBands | togglsync/tests/mattermost_tests.py:153-157 | 45 seconds is `45 s`, five minutes `5 m` |
| MattermostScenarios.FormatSecondsTenHours | togglsync/tests/mattermost_tests.py:159-160 | ten hours is `10.00 h` |
| MattermostScenarios.FormatSecondsMinutes | togglsync/tests/mattermost_tests.py:113-151 | 60, 120, 180 and 3000 seconds are `1 m`, `2 m`, `3 m` and `50 m` |
| MattermostScenarios.FormatSecondsOneHour | togglsync/tests/mattermost_tests.py:230-263 | one hour is `1.00 h` |
| MattermostScenarios.FormatSecondsHours | togglsync/tests/mattermost_tests.py:78-111 | four times 3123 seconds is `3.47 h`, 36 hours is `36.00 h` |
| MattermostScenarios.DurationLines | togglsync/tests/mattermost_tests.py:194-228 | 1 day is `Sync: 1 day`; 2 and 0 are `days` |
| MattermostScenarios.WorkIssue | togglsync/tests/mattermost_tests.py:265-290 | a test entry names its issue |
| MattermostScenarios.GroupSixEntries | togglsync/tests/mattermost_tests.py:265-290 | the six entries group under `333`, `334`, `335` |
| MattermostScenarios.IssueLineOf | togglsync/tests/mattermost_tests.py:265-290 | the line of an issue whose time rounds to `c` hundredths is `- #<issue>: <short c> h` |
| MattermostScenarios.FourHoursLine | togglsync/tests/mattermost_tests.py:265-290 | four hours on `333` is `- #333: 4.0 h` |
| MattermostScenarios.TwoHoursLine | togglsync/tests/mattermost_tests.py:265-290 | two hours on `335` is `- #335: 2.0 h` |
| MattermostScenarios.HalfHourLine | togglsync/tests/mattermost_tests.py:265-290 | half an hour on `334` is `- #334: 0.5 h` |
| MattermostScenarios.TenHoursLine | togglsync/tests/mattermost_tests.py:292-318 | ten hours on `400` is `- #400: 10.0 h` |
| MattermostScenarios.TotalsOfSixEntries | togglsync/tests/mattermost_tests.py:265-290 | the six entries total 4 h, 0.5 h and 2 h on `333`, `334`, `335` |
| MattermostScenarios.SortThreeTotals | togglsync/tests/mattermost_tests.py:265-290 | the three totals sort as 4 h, 2 h, 0.5 h |
| MattermostScenarios.TopIssuesOfFew | togglsync/tests/mattermost_tests.py:265-290 | with three issues or fewer, all are listed |
| MattermostScenarios.TopOfSixEntries | togglsync/tests/mattermost_tests.py:265-290 | the listed issues are `333`, `335`, `334` |
| MattermostScenarios.SortFourTotals | togglsync/tests/mattermost_tests.py:292-318 | four totals sort largest first |
| MattermostScenarios.SortRisingTotals | togglsync/tests/mattermost_tests.py:292-318 | rising totals sort in reverse |
| MattermostScenarios.GroupSevenEntries | togglsync/tests/mattermost_tests.py:292-318 | the seven entries group under `333`, `334`, `335`, `400` |
| MattermostScenarios.TotalsOfSevenEntries | togglsync/tests/mattermost_tests.py:292-318 | the seven entries total 4 h, 0.5 h, 2 h and 10 h |
| MattermostScenarios.TopOfSevenEntries | togglsync/tests/mattermost_tests.py:292-318 | only `400`, `333` and `335` are listed; `334` is cut |
| MattermostScenarios.SummaryOfSixEntries | togglsync/tests/mattermost_tests.py:265-290 | the issue summary of the six entries, line by line |
| MattermostScenarios.SummaryOfSevenEntries | togglsync/tests/mattermost_tests.py:292-318 | the issue summary of the seven entries, line by line |
| MattermostScenarios.SummaryWithoutIssues | togglsync/tests/mattermost_tests.py:320-332 | an entry without an issue gives no issue summary |
| MattermostScenarios.PlainNumberIsNoIssue | togglsync/tests/mattermost_tests.py:320-332 | `test 333` names no issue |
| MattermostScenarios.NoEntriesLines | togglsync/tests/mattermost_tests.py:25-36 | no entries give the found line with zeros, the "did not work today" line and an empty line |
| MattermostScenarios.NoEntriesText | togglsync/tests/mattermost_tests.py:25-36 | the text of no entries, with its closing newline |
| MattermostScenarios.SummaryText | togglsync/tests/mattermost_tests.py:265-290 | an issue summary of three lines joins into the expected text |
| MattermostScenarios.OneHourLine | togglsync/tests/mattermost_tests.py:230-263 | one hour on `333` is `- #333: 1.0 h` |
| MattermostScenarios.OneMinuteLine | togglsync/tests/mattermost_tests.py:53-76 | one minute on `666` is `- #666: 0.02 h` |
| MattermostScenarios.SummaryOfOneEntry | togglsync/tests/mattermost_tests.py:230-263 | one entry with an issue gives the header, its line and an empty line |
| MattermostScenarios.FinishedThenRunning | togglsync/tests/mattermost_tests.py:230-263 | of a finished and a running entry, only the first counts as finished |
| MattermostScenarios.FoundTwoFilteredOne | togglsync/tests/mattermost_tests.py:230-263 | the found line for 2 found and 1 filtered |
| MattermostScenarios.OneHourReport | togglsync/tests/mattermost_tests.py:230-263 | the report of one finished hour on `333` |
| MattermostScenarios.EntriesWithRunning | togglsync/tests/mattermost_tests.py:230-263 | `appendEntries` of a finished and a running entry counts 2 found, 1 filtered, and reports only the finished one |
| MattermostScenarios.PlainDescriptions | togglsync/tests/mattermost_tests.py:181-192 | an empty description and `Hardwork` name no issue |
| MattermostScenarios.HardworkIssue | togglsync/tests/mattermost_tests.py:181-192 | `#666 Hardwork` names issue `666` |
| MattermostScenarios.FoundOneFilteredNone | togglsync/tests/mattermost_tests.py:38-51 | the found line for 1 found and 0 filtered |
| MattermostScenarios.EntriesOneWithoutIssue | togglsync/tests/mattermost_tests.py:38-51 | one minute without an issue: 1 found, 0 filtered, `1 m` worked, no issue summary |
| MattermostScenarios.SummarySkipsUnkeyed | togglsync/tests/mattermost_tests.py:53-76 | an entry without an issue does not change the issue summary |
| MattermostScenarios.TwoMinutesReport | togglsync/tests/mattermost_tests.py:53-76 | two minutes, one on `666`: `2 m` worked and `- #666: 0.02 h` |
| MattermostScenarios.EntriesOneWithIssue | togglsync/tests/mattermost_tests.py:53-76 | 2 found, 1 filtered, then that report |
| MattermostScenarios.FilterTodayKeepsStarted | togglsync/tests/mattermost_tests.py:162-172 | of an entry started today and one without a start, the first is kept |
| MattermostScenarios.FilterTodayNothing | togglsync/tests/mattermost_tests.py:173-179 | an empty list and no list both give nothing |
| MattermostScenarios.FilterWithIssueIdKeepsOrder | togglsync/tests/mattermost_tests.py:181-192 | of three entries, the first and third (with issues) are kept, in order |
| MattermostScenarios.SendAppended | togglsync/tests/mattermost_tests.py:16-23 | `append("test")` then `send` hands `test` to the runner |
| MattermostScenarios.SendNoEntries | togglsync/tests/mattermost_tests.py:25-36 | `appendEntries([])` then `send` hands over the text of no entries |
| MattermostScenarios.SendDuration | togglsync/tests/mattermost_tests.py:194-228 | `appendDuration` of 1, 2, 0 then `send` hands over the singular or plural line |
| MattermostScenarios.SixWorkSummary | togglsync/tests/mattermost_tests.py:265-290 | the six test entries' issue summary, line by line |
| MattermostScenarios.SixWorkText | togglsync/tests/mattermost_tests.py:265-290 | the six test entries' issue summary as the expected text |
| MattermostScenarios.SevenWorkSummary | togglsync/tests/mattermost_tests.py:292-318 | the seven test entries' issue summary, line by line |
| MattermostScenarios.SevenWorkText | togglsync/tests/mattermost_tests.py:292-318 | the seven test entries' issue summary as the expected text |
| MattermostScenarios.SendSummaryOfSix | togglsync/tests/mattermost_tests.py:265-290 | the issue summary writer then `send` hands over the expected text for six entries |
| MattermostScenarios.SendSummaryOfSeven | togglsync/tests/mattermost_tests.py:292-318 | the issue summary writer then `send` hands over the expected text for seven entries, cut to three issues |
| MattermostScenarios.SendNoSummary | togglsync/tests/mattermost_tests.py:320-332 | without issue ids, the issue summary writer adds nothing and `send` hands over an empty text |

## Left out

- `RequestsRunner` (the HTTP runner that posts to Mattermost, with JSON payloads and channels) is network I/O. The runner here is a class that records what it is handed.
- Loading the configuration from a YAML file is file I/O. The configured issue pattern is fixed to `#` followed by one or more digits, which is the pattern every test uses.
- General regular expressions are not modelled. Issue ids and Toggl tags are read by hand-written scanners.
- Timestamp text (ISO 8601, time zones, fractional seconds) is taken as already parsed into a date and a time to the second. "Today" is a parameter.
- Floating point is not modelled. Durations are integer seconds, and the test entry of `0.5 * 3600` seconds is 1800. Redmine hours are exact `seconds / 3600` reals. Hours in the notifier are exact hundredths rounded half to even, where Python rounds the binary float.
- Python's rendering of a rounded float is modelled only for values of at most two decimals. For example, `-0.0` is not distinguished from `0.0`.
- Mattermost.Notifier.AppendSummary: the wording of the three summary lines depends on bands of hours, entry counts and shares. These lines are a `Prose` parameter, so the texts the summary tests expect (`mattermost_tests.py:78-151`) are checked only for their `formatSeconds` part.
- Synchronizer.Synchronizer.Start: Toggl is asked once for `days`, as the tests assert. A loop over single days is not modelled.
- Synchronizer.FirstTagged: when several fetched entries carry the same tag, the first one is used. No test decides this case.
- The only per-issue failure modelled is an entry without a start time. The rest of the `raise_errors` error reporting (logging, exception types) is not modelled. The strict mode stops at the first failed issue; the default mode records it and goes on.
- The Jira test at `synchronizer_jira_tests.py:25-50` only asserts the single Toggl fetch, so it is covered by Synchronizer.Synchronizer.Start and nothing more.
- The Jira test at `synchronizer_jira_tests.py:136-172` asserts nothing beyond the run completing, against a mock without `put` or `update`. Its outcome depends on how the mock's missing methods fail, which is not modelled.
- `appendEntries` reports all the entries it is given. Filtering them to today is left to the caller, as in the tests.
- Grouping.GroupTogglByIssueId: keeps running entries. The filter on negative durations sits in `start`, modelled by Synchronizer.IssueGroups through Entries.Completed, so the engine never groups a running entry.
- Equality.StartMatches: the tests only compare starts that differ by hours (`synchronizer_jira_tests.py:299-305`). Comparing to the minute, with the seconds ignored, is the model's choice; no test decides it.
- Idempotence.Idempotent: relies on Destination.Tracker returning exactly the payload written. A tracker that rounds the stored hours or minutes is not modelled.
- Mattermost.FormatSecondsReadBack: below an hour, the minutes are the whole minutes, rounded down. The tests only use whole minutes (`mattermost_tests.py:113-160`), so rounding down is a choice no test decides.
- Mattermost.Notifier.Send: the buffer is kept after `send`. Each test calls `send` once, so no test decides whether it is cleared.
- Mattermost.WorkLines: the "did not work today" line is chosen when no finished entry is given. Only `appendEntries([])` is tested (`mattermost_tests.py:25-36`), so a list of only running entries is a choice no test decides.
- Mattermost.FoundLine: the found and filtered counts are read back by separate lemmas (Mattermost.FoundLineReadBack, Mattermost.FilteredPartReadBack), not by the function's own contract.
- The author of a tracker entry and Jira's internal issue id are not kept. No test compares them.
