# git-push-check: a verified model of the "is HEAD pushed?" decision

git-push-check answers one question for the checked-out commit (HEAD): is it
already on a remote? It first scans the remote-tracking branches
(`refs/remotes/...`) in enumeration order. A branch counts when its tip is HEAD
or strictly descends from HEAD. If no branch counts, it scans the tags
(`refs/tags/...`). A tag counts only when it points at HEAD exactly. The
`--only branches|tags|all` option selects which scans run. The first match
wins and is reported. `main` maps `run`'s result to the exit status 0 (pushed),
2 (not pushed) or 1 (error).

The model has three files:

- `wrappers.dfy` (module `Wrappers`) holds `Option` and `Result`.
- `push_check.dfy` (module `PushCheck`) holds the data model and the checker.
  - The reference enumeration is a `Listing`: either a listing failure or a
    sequence of `RefEntry`. Each entry is an enumeration error, or a readable
    name (optional) with the commit it peels to (optional).
  - `CommitId` is an opaque type with equality.
  - The ancestry query `graph_descendant_of(commit, ancestor)` is a supplied
    function returning `Result<bool, GitError>`. It is called as
    `q(tip, head)`: does the branch tip strictly descend from HEAD?
  - `Run` is the imperative body of `run`. It has the `pushed` flag and two
    loops that break at the first match. It returns an `Outcome` (`Pushed(kind,
    name)`, `NotPushed` or `Failed(error)`) and the lines it prints, as data.
  - `Run` is proved equal to the pure specification `Check`. `Invoke` is
    `main`: it runs the check and maps the outcome to the exit status.
- `push_check_properties.dfy` (module `PushCheckProperties`) states what
  `Check` means without referring to how the scans are written. It covers
  which reference is reported, which entries and queries can affect the
  result, and when an error is fatal.

Three kinds of failure are fatal, each with its own `Error` variant: a failed
reference listing (src/main.rs:59, :81), an error yielded by the enumeration
itself (src/main.rs:60, :82), and a failed ancestry query (src/main.rs:67).
All three propagate with `?`.

## Model

| member | source | states |
|---|---|---|
| PushCheck.Check | src/main.rs:45-104 | The intended result of `run` for a resolved HEAD. A listing failure is `Failed(ListingError)` in every mode. An empty snapshot is `NotPushed` in every mode. A branch result is never produced in mode Tags. A tag result is never produced in mode Branches. |
| PushCheck.Run | src/main.rs:45-104 | The imperative `run`, with the `pushed` flag and two loops that break at the first match. Its outcome equals `Check` for every mode, snapshot and query. What it prints equals `Report` of that outcome. |
| PushCheck.Report | src/main.rs:69-101 | The lines printed. There is exactly one on success, none when the run fails, and every line names HEAD. A branch result prints the branch line and a tag result prints the tag line, each naming the reported reference. A not-pushed result prints the "NOT pushed" line. |
| PushCheck.ExitCode | src/main.rs:35-42 | The status is 0 exactly when pushed, 2 exactly when not pushed, and 1 exactly on an error. |
| PushCheck.Invoke | src/main.rs:29-43 | `main`: the status and the output are those of `Check` mapped by `ExitCode` and `Report`. |
| PushCheck.ScanSkipsPrefix | src/main.rs:59-76 | A scan that passed the first i entries has the same result as the scan that starts at entry i. This is the loop invariant of both loops. |
| PushCheckProperties.ScanFindsFirst | src/main.rs:59-76 | If every entry before i is skipped and entry i is not, the scan returns entry i's step. First match wins. |
| PushCheckProperties.ScanSkipIff | src/main.rs:59-76 | A scan finds nothing exactly when every entry is skipped. |
| PushCheckProperties.ScanWitness | src/main.rs:59-76 | A scan that stops does so at some entry that every earlier entry let pass. |
| PushCheckProperties.ScanAppend | src/main.rs:72-73 | Appending entries does not change a scan that already stopped. Otherwise the result is the scan of the appended part. |
| PushCheckProperties.ScanAgree | src/main.rs:59-95 | Two scans that see the same step at every position give the same result. |
| PushCheckProperties.BranchStepMeaning | src/main.rs:60-75 | One iteration of the branch loop. It passes the entry exactly when the entry is no enumeration error and is not a remote branch whose tip equals HEAD or whose query does not answer false. It matches exactly on a remote branch whose tip is HEAD or descends from it, and the match carries that entry's name. |
| PushCheckProperties.TagStepMeaning | src/main.rs:82-94 | One iteration of the tag loop. It passes the entry exactly when the entry is no enumeration error and no tag peeling to HEAD itself. It matches exactly on such a tag, and the match carries that entry's name. |
| PushCheckProperties.BranchScanSkipIff | src/main.rs:59-76 | The branch loop completes without a match exactly when every entry passes. An entry passes when it is no enumeration error, no hit, and no remote branch whose query failed. |
| PushCheckProperties.BranchScanMatchIff | src/main.rs:59-76 | The branch loop matches name n exactly when the first entry that does not pass is a remote branch named n whose tip equals HEAD or descends from it. |
| PushCheckProperties.TagScanSkipIff | src/main.rs:81-95 | The tag loop completes without a match exactly when no entry is an enumeration error or a tag that peels to HEAD. |
| PushCheckProperties.TagScanMatchIff | src/main.rs:81-95 | The tag loop matches name n exactly when the first entry that does not pass is a tag named n that peels to HEAD. |
| PushCheckProperties.BranchPushedIff | src/main.rs:58-76 | Branch match, in both directions. The result is `Pushed(RemoteBranch, n)` exactly when the mode is Branches or All and a remote branch named n peels to HEAD or a descendant of HEAD, with every earlier entry passed over. So n is the first such reference. |
| PushCheckProperties.TagPushedIff | src/main.rs:80-95 | Tag match, in both directions. The result is `Pushed(Tag, n)` exactly when all of these hold: the mode is Tags or All; in mode All the branch scan passed every entry; and a tag named n peels to HEAD exactly, with every earlier entry passed over. |
| PushCheckProperties.DescendantTagNeverPushes | src/main.rs:86-89 | Tags use equality only. If no tag peels to HEAD itself, no tag is ever reported, even if a tag's commit descends from HEAD. |
| PushCheckProperties.NotPushedIff | src/main.rs:55-102 | The result is `NotPushed` exactly when every scan the mode selects passes every entry. |
| PushCheckProperties.BranchErrorBeforeMatchIsFatal | src/main.rs:59-73 | In the branch scan, the first entry that is not passed may be an enumeration error or a failed ancestry query. That error is then the result of the whole run. |
| PushCheckProperties.TagErrorBeforeMatchIsFatal | src/main.rs:81-92 | In mode Tags, an enumeration error reached before any exact tag is the result of the whole run. |
| PushCheckProperties.AllModeTagScanCannotFail | src/main.rs:80-95 | With one snapshot for both scans, the tag scan of mode All never fails once the branch scan passed every entry. So in mode All every error of the run comes from the branch scan. |
| PushCheckProperties.BranchMatchIgnoresLaterEntries | src/main.rs:66-76 | Once a remote branch matched, entries enumerated after it never change the result. This includes errors. |
| PushCheckProperties.TagMatchIgnoresLaterEntries | src/main.rs:87-95 | In mode Tags, once a tag matched, entries enumerated after it never change the result. |
| PushCheckProperties.NamespacesDisjoint | src/main.rs:61-85 | No reference name starts with both `refs/tags/` and `refs/remotes/`. |
| PushCheckProperties.BranchesIgnoresTags | src/main.rs:58-63 | Mode Branches never examines tags. Two snapshots that differ only in tag references give the same result. |
| PushCheckProperties.TagsIgnoresBranchesAndQuery | src/main.rs:80-88 | Mode Tags never examines remote branches and never calls the ancestry query. Two snapshots that differ only in remote references, with any two queries, give the same result. |
| PushCheckProperties.EqualTipNeverQueried | src/main.rs:66-67 | Equality is checked first. The query is never asked about HEAD against itself. So two queries that differ only there give the same result in every mode, and a query failing there cannot cause an error. |
| PushCheckProperties.SkippedEntryIrrelevant | src/main.rs:61-87 | Removing an entry changes nothing when it has no readable name, does not peel to a commit, or lies outside both namespaces. Such entries are skipped silently. |
| PushCheckProperties.ExitStatusAndOutput | src/main.rs:35-42 | Status 0 comes with one branch or tag line. Status 2 comes with the single "NOT pushed" line. Status 1 comes with no line. |
| PushCheckProperties.ScenarioBranchAtHead | src/main.rs:58-76 | A remote branch at HEAD is reported in mode Branches. |
| PushCheckProperties.ScenarioBranchAhead | src/main.rs:58-76 | A remote branch strictly ahead of HEAD is reported in mode All. |
| PushCheckProperties.ScenarioTagAhead | src/main.rs:80-102 | In mode Tags, a tag strictly ahead of HEAD gives `NotPushed`. |
| PushCheckProperties.ScenarioTagAtHead | src/main.rs:80-95 | A tag at HEAD is reported in mode All when no branch matches. |

## Left out

- Command-line parsing (`Cli`, `Only` derive machinery) and logging (`env_logger`, `debug!`, `error!`). These are library glue. The mode is a plain `Only` parameter.
- Exit statuses from argument parsing. `Cli::parse()` (src/main.rs:32) ends the process itself before `run` starts. A command-line usage error, such as an unknown `--only` value, exits with status 2, the same as "not pushed". `--help` and `--version` (enabled at src/main.rs:15) exit with 0, the same as "pushed". Only errors from `run` reach status 1. `Invoke` models `main` after a successful parse. So in a hook, a mistyped option reads as "not pushed".
- Opening the repository and resolving HEAD (src/main.rs:47-53). HEAD is an already-resolved `CommitId` input. The errors of those calls are not modelled: they abort before any scan, with status 1.
- The implementations of `peel_to_commit`, `name()` and `graph_descendant_of`. Each is an input instead: the optional peeled commit and optional name per entry, and the query function.
- Process exit and stdout. The exit status is returned as an integer. Printed lines are `Message` values carrying HEAD and the reference name. The exact wording and the textual form of a commit id are not modelled.
- Concurrent modification. The source lists references twice (src/main.rs:59 and :81). The model gives both scans the same snapshot, so a repository changed between the two calls is not modelled.
- Separate failures of the second listing. In mode All, the source's second `repo.references()?` and its per-entry `reference?` (src/main.rs:81-82) are calls of their own and can fail after the branch loop has finished. The model reads one `Listing` for both scans, so those failures happen only at src/main.rs:59-60. In mode All the tag scan of the model never fails (AllModeTagScanCannotFail).
- TagMatchIgnoresLaterEntries: stated for mode Tags only. In mode All, entries after a matching tag are still read by the earlier branch scan and can change the result, as in the source.
