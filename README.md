# Bruno git sync, modelled in Dafny

This project models the git-sync core of Bruno: how it keeps a collection of
`.bru` request files in a git repository. It has five parts.

- **The git service** (`git-service.js`):
  - reconciles `git status` into a snapshot in which no path is both staged and modified;
  - scans every staged `.bru` file against a fixed table of six secret patterns and refuses to commit while any pattern matches;
  - upserts and looks up remotes;
  - writes a default `.gitignore` only when none exists;
  - turns file arguments into the paths that `git add` and `git reset` receive.
- **The IPC handlers** (`git-sync.js`) order those calls. An empty commit message is rejected before git is touched. A status query outside a repository is rejected after one `git status` probe. Push runs only after a successful commit. The stored config changes only after the git call succeeds. Every thrown error becomes `{ success: false, error }`.
- **The config store** (`git-config.js`) maps collection paths to records. Its `set` is a shallow merge that stamps `updatedAt`.
- **The Redux git slice** (`slices/git/index.js`) maps collection uids to their git state. Its reducers update one entry in place and ignore unknown uids.
- **The sync indicator** (`SyncStatus/index.js`) picks one colour and text by priority: syncing, then error, then pending changes, then synced, then not synced.

Git (simple-git) and the file system are not part of this model.
They are stood in for by one `GitBackend.Backend` object with these fields:

- the repository flag, the `git status` report, the remotes and the workspace files;
- the reports that commit and push return;
- a fault schedule giving the message each numbered call throws;
- a log of every git call and file access, in order.

The clock is the parameter `now`.

The service's methods are proved against specification functions of that object
(`SecretScan`, `CommitSpec`, `SetRemoteError`, ...), covering both what they
return and the exact calls they make. Each regular-expression test is an
uninterpreted parameter `test`.

Modules, one file each:

- `JsRuntime`: null as `Option`, thrown errors as `Try`, and `trim`, `endsWith`, `split`, `join` and `${n}`.
- `NodePath`: POSIX `path.normalize`, `join`, `resolve` and `relative`.
- `GitBackend`, `GitService`, `GitConfig`, `GitSyncIpc`, `GitSlice` and `SyncStatus`.

## Model

| member | source | states |
|---|---|---|
| JsRuntime.Trim | packages/bruno-electron/src/ipc/git-sync.js:63 | trim gives a slice `s[a..b]` of its input with all-whitespace text before `a` and after `b`, leaves no whitespace at either end, and is empty exactly when the string is all whitespace |
| JsRuntime.TrimSlice | packages/bruno-electron/src/ipc/git-sync.js:63 | cutting a blank prefix and then a blank suffix leaves a slice of the input with blank text on both sides of it |
| JsRuntime.SplitJoin | packages/bruno-electron/src/git/git-service.js:161-163 | splitting a `join('\n')` on the separator gives the pieces back when none contains it |
| JsRuntime.NatToStringRoundTrip | packages/bruno-app/src/components/GitSync/SyncStatus/index.js:32 | the decimal text of a count reads back as that count |
| NodePath.JoinPath | packages/bruno-electron/src/git/git-service.js:139 | definition of POSIX `path.join`: the non-empty parts joined by `/`, then normalised; used by the scan and by GitService.GitignorePath |
| NodePath.Relative | packages/bruno-electron/src/git/git-service.js:104 | definition of POSIX `path.relative` over resolved segments: one `..` per segment of `from` past the common prefix, then the rest of `to`; proved by RelativeRoundTrip and RelativeInside |
| NodePath.RelativeRoundTrip | packages/bruno-electron/src/git/git-service.js:104 | path.relative(from, to) is a relative path that, resolved in `from`, names `to` |
| NodePath.RelativeInside | packages/bruno-electron/src/git/git-service.js:104 | for a file inside `from`, path.relative gives the segments below `from` |
| GitBackend.ReplaceUrl | packages/bruno-electron/src/git/git-service.js:223 | set-url gives every remote of that name the new URL and keeps order, length and the other remotes |
| GitBackend.Backend.Read | packages/bruno-electron/src/git/git-service.js:140 | readFileSync returns the file's content, or throws ENOENT for a missing file; the read is logged |
| GitService.IsGitRepo | packages/bruno-electron/src/git/git-service.js:9-17 | a directory is a repository exactly when `git status` does not throw |
| GitService.WithoutStaged | packages/bruno-electron/src/git/git-service.js:72 | the filter keeps exactly the unstaged paths and never lengthens the list |
| GitService.WithoutStagedAppend | packages/bruno-electron/src/git/git-service.js:72 | the filter keeps order: filtering `modified ++ not_added` filters each part |
| GitService.WithoutStagedCount | packages/bruno-electron/src/git/git-service.js:72 | duplicates survive: an unstaged path keeps all its occurrences and a staged path loses all of them |
| GitService.WithoutStagedKeepsAll | packages/bruno-electron/src/git/git-service.js:71-72 | with nothing staged, the list passes through unchanged |
| GitService.Reconcile | packages/bruno-electron/src/git/git-service.js:70-84 | no modified path is staged; modified is the order-preserving filter of `modified ++ not_added`; branch, staged, created, deleted, renamed, ahead, behind and isClean pass through |
| GitService.GetStatus | packages/bruno-electron/src/git/git-service.js:66-85 | one `git status`; its error is thrown, otherwise its reconciled snapshot is returned |
| GitService.FileWarnings | packages/bruno-electron/src/git/git-service.js:142-146 | at most one warning per pattern tried |
| GitService.FileWarningsExact | packages/bruno-electron/src/git/git-service.js:142-146 | a file gets a warning of a kind exactly when that kind's pattern matches its content, and every warning names that file |
| GitService.FileWarningsAbove | packages/bruno-electron/src/git/git-service.js:142-146 | a file's warnings are only of kinds that were tried, so a rank bound on the kinds bounds the warnings |
| GitService.FileWarningsOrdered | packages/bruno-electron/src/git/git-service.js:128-146 | warnings for one file follow the order of the pattern table |
| GitService.OneFileWarnings | packages/bruno-electron/src/git/git-service.js:128-146 | one file yields at most 6 warnings, in table order, exactly for the matching patterns |
| GitService.ScanFrom | packages/bruno-electron/src/git/git-service.js:137-150 | definition of the scan loop over pending staged files: non-`.bru` files skipped, a missing file throws ENOENT, otherwise that file's warnings appended; proved by ScanFromWarnings and ScanWarnsOnlyStagedBru |
| GitService.Scan | packages/bruno-electron/src/git/git-service.js:123-151 | definition of the scan from an empty warning list; ScanStaged is proved equal to it |
| GitService.ScanFromWarnings | packages/bruno-electron/src/git/git-service.js:137-148 | a warning of the scan either was found before or names a pending file ending in `.bru` |
| GitService.ScanWarnsOnlyStagedBru | packages/bruno-electron/src/git/git-service.js:137-145 | every warning names a staged file ending in `.bru` |
| GitService.ScanReadsInside | packages/bruno-electron/src/git/git-service.js:137-140 | every read is a read of `path.join(root, f)` for a pending `.bru` file `f` |
| GitService.ScanReadsOnlyStagedBru | packages/bruno-electron/src/git/git-service.js:137-140 | non-`.bru` and unstaged files are never read |
| GitService.ScanDependsOnlyOnStagedBru | packages/bruno-electron/src/git/git-service.js:137-146 | two workspaces that agree on the staged `.bru` files give the same warnings and the same reads |
| GitService.ScanContent | packages/bruno-electron/src/git/git-service.js:142-146 | the inner loop pushes exactly the warnings of the patterns that match, in table order |
| GitService.ScanStaged | packages/bruno-electron/src/git/git-service.js:137-150 | the outer loop returns the warnings grouped by file in staged order, or the first missing file's error, and reads exactly the staged `.bru` files up to that point |
| GitService.ScanForSecrets | packages/bruno-electron/src/git/git-service.js:123-151 | one `git status`, then the scan of its staged list; a failing status is thrown |
| GitService.LabelOneLine | packages/bruno-electron/src/git/git-service.js:129-134 | no pattern label contains a line break |
| GitService.SecretsMessage | packages/bruno-electron/src/git/git-service.js:161-167 | definition of the refusal text; SecretsMessageLines proves its lines |
| GitService.SecretsMessageJoin | packages/bruno-electron/src/git/git-service.js:161-167 | the refusal message is its heading, warning lines, blank line and advice joined with line breaks |
| GitService.WarningLineOneLine | packages/bruno-electron/src/git/git-service.js:161-163 | a warning line is a single line when its file name is |
| GitService.SecretsMessagePartsOneLine | packages/bruno-electron/src/git/git-service.js:161-167 | each part of the refusal message is a single line when file names have no line breaks |
| GitService.SecretsMessageLines | packages/bruno-electron/src/git/git-service.js:160-169 | the refusal message's lines are the heading, one "file: Potential type detected" per warning in order, a blank line and the advice |
| GitService.Commit | packages/bruno-electron/src/git/git-service.js:156-180 | commit returns the scan's refusal with its warnings, or the backend commit's result; `git commit` runs only after an empty scan |
| GitService.CommitGate | packages/bruno-electron/src/git/git-service.js:158-179 | `git commit` is issued exactly when the scan succeeds with no warning, and a refusal carries the scan's nonempty warnings |
| GitService.Push | packages/bruno-electron/src/git/git-service.js:185-194 | push uses `origin` and `main` when those arguments are undefined, and returns the backend's report or throws its error |
| GitService.FindRemote | packages/bruno-electron/src/git/git-service.js:238 | find gives the first remote of that name, and none exactly when no remote has that name |
| GitService.FindRemoteTail | packages/bruno-electron/src/git/git-service.js:238 | skipping a first remote of another name keeps the first match |
| GitService.FindRemoteAgree | packages/bruno-electron/src/git/git-service.js:238 | two listings with the same remotes of a name at the same places find the same remote |
| GitService.FindRemoteAppend | packages/bruno-electron/src/git/git-service.js:238 | a remote of another name appended at the end does not change what find gives |
| GitService.RemoteUrl | packages/bruno-electron/src/git/git-service.js:238-244 | definition of getRemote's answer: the first remote so named, its fetch URL when non-empty, otherwise null |
| GitService.Upsert | packages/bruno-electron/src/git/git-service.js:218-227 | definition of the remote list after setRemote: set-url when the name exists, otherwise the remote appended; proved by UpsertThenLookup, UpsertKeepsOthers and UpsertNoDuplicate |
| GitService.UpsertThenLookup | packages/bruno-electron/src/git/git-service.js:219-242 | after setRemote(name, url), getRemote(name) returns url, or null when url is empty |
| GitService.UpsertKeepsOthers | packages/bruno-electron/src/git/git-service.js:219-226 | setRemote leaves the lookup of every other name unchanged |
| GitService.UpsertNoDuplicate | packages/bruno-electron/src/git/git-service.js:218-226 | setRemote keeps remote names distinct, and adds a remote exactly when the name was new |
| GitService.SetRemote | packages/bruno-electron/src/git/git-service.js:215-229 | lists the remotes, then issues set-url if the name exists or add otherwise; on success the remotes are upserted, on failure unchanged |
| GitService.GetRemote | packages/bruno-electron/src/git/git-service.js:234-245 | returns the first matching remote's fetch URL, or null when there is none or it has no fetch URL |
| GitService.TrimFramed | packages/bruno-electron/src/git/git-service.js:28-54 | trimming text framed by line breaks, whose ends are not blank, gives the text |
| GitService.GitignoreTrimmed | packages/bruno-electron/src/git/git-service.js:28-54 | the content written is the template literal, trimmed |
| GitService.WithGitignore | packages/bruno-electron/src/git/git-service.js:56-58 | `.gitignore` exists afterwards; an existing one keeps its content; no other file changes |
| GitService.WithGitignoreIdempotent | packages/bruno-electron/src/git/git-service.js:56-58 | a second initialisation writes nothing |
| GitService.InitializeRepo | packages/bruno-electron/src/git/git-service.js:22-61 | `git init`, then the default `.gitignore` written only if absent; a failing init throws and writes nothing |
| GitService.UnstageArgument | packages/bruno-electron/src/git/git-service.js:103-105 | definition of unstageFile's argument: a relative path as given, an absolute one relative to the collection |
| GitService.StageArgumentAsWritten | packages/bruno-electron/src/git/git-service.js:115 | definition of stageFile's argument as written: always `path.relative(collectionPath, filePath)` |
| GitService.UnstageNamesSameFile | packages/bruno-electron/src/git/git-service.js:103-105 | relative paths pass through unchanged; absolute ones become a relative path naming the same file from the collection root |
| GitService.UnstageFile | packages/bruno-electron/src/git/git-service.js:99-108 | issues `git reset HEAD <path>` with that path |
| GitService.StageAsWrittenUsesCwd | packages/bruno-electron/src/git/git-service.js:115 | stageFile as written makes git name the file that the argument denotes in the process working directory |
| GitService.StageAsWrittenMissesRelativeFile | packages/bruno-electron/src/git/git-service.js:115 | a counterexample: stageFile("a.bru") from `/` for collection `/c` stages `/a.bru` |
| GitService.StageNamesSameFile | packages/bruno-electron/src/git/git-service.js:113-118 | the corrected stageFile hands git a relative path naming the given file from the collection root |
| GitService.StageFile | packages/bruno-electron/src/git/git-service.js:113-118 | issues `git add` with the corrected path |
| GitConfig.Lookup | packages/bruno-electron/src/store/git-config.js:14-17 | the stored record, or null exactly when the path has none |
| GitConfig.Merged | packages/bruno-electron/src/store/git-config.js:24-28 | the merge has the old record's keys, the new keys and `updatedAt`; new values win; old values survive for keys not overlaid; `updatedAt` is always the current time |
| GitConfig.SetThenGet | packages/bruno-electron/src/store/git-config.js:22-30 | after set(p, c), get(p) holds every field of c except a supplied `updatedAt`, which is replaced |
| GitConfig.OthersUntouched | packages/bruno-electron/src/store/git-config.js:22-39 | set and remove leave every other path's record unchanged |
| GitConfig.RemoveThenGet | packages/bruno-electron/src/store/git-config.js:35-39 | after remove(p), get(p) is null |
| GitConfig.MergedTwice | packages/bruno-electron/src/store/git-config.js:24-28 | two sets in a row equal one set of both overlays, stamped with the later time |
| GitConfig.GitConfigStore.constructor | packages/bruno-electron/src/store/git-config.js:4-9 | the store opens on the persisted map |
| GitConfig.GitConfigStore.GetGitConfig | packages/bruno-electron/src/store/git-config.js:14-17 | getGitConfig is the lookup of the stored map |
| GitConfig.GitConfigStore.SetGitConfig | packages/bruno-electron/src/store/git-config.js:22-30 | the entry for the path becomes the merged record; nothing else changes |
| GitConfig.GitConfigStore.RemoveGitConfig | packages/bruno-electron/src/store/git-config.js:35-39 | exactly that path's entry is deleted, so get then returns null |
| GitConfig.GitConfigStore.GetAllGitConfigs | packages/bruno-electron/src/store/git-config.js:44-46 | the map holds exactly the paths that getGitConfig finds, with the same records |
| GitSyncIpc.MessageMissing | packages/bruno-electron/src/ipc/git-sync.js:63 | definition of `!message || message.trim().length === 0`; its meaning is stated by MessageMissingMeansBlank |
| GitSyncIpc.RemoteConfig | packages/bruno-electron/src/ipc/git-sync.js:100-101 | definition of `getGitConfig(path) || {}` with `remote` set; its effect on the store is stated by SetRemoteConfigEffect |
| GitSyncIpc.MessageMissingMeansBlank | packages/bruno-electron/src/ipc/git-sync.js:63 | a commit message is refused exactly when it is absent or all whitespace |
| GitSyncIpc.SetRemoteConfigEffect | packages/bruno-electron/src/ipc/git-sync.js:100-102 | set-remote changes only `remote` and `updatedAt` of the stored record, starting from `{}` when there is none |
| GitSyncIpc.HandleInit | packages/bruno-electron/src/ipc/git-sync.js:7-22 | `git init` runs first, then the `.gitignore` write when none exists; afterwards the repository exists unless init threw; the config `{enabled, initialized, autoStage}` is saved only after initializeRepo succeeds; a thrown error becomes a failure reply and leaves the store and the files untouched |
| GitSyncIpc.HandleStatus | packages/bruno-electron/src/ipc/git-sync.js:25-38 | outside a repository: "Not a git repository" and getStatus is never called; otherwise the snapshot, or the thrown error as a failure |
| GitSyncIpc.HandleCommit | packages/bruno-electron/src/ipc/git-sync.js:61-72 | a missing or blank message gives "Commit message is required" without touching git; otherwise commit's result, a thrown error becoming a failure |
| GitSyncIpc.HandleCommitAndPush | packages/bruno-electron/src/ipc/git-sync.js:151-171 | an unsuccessful commit result is returned as is and push is never issued; after a commit, a failing push gives a plain failure without the commit; otherwise `{commit, push}`; a reply with `success: true` means the push reached git |
| GitSyncIpc.HandleSetRemote | packages/bruno-electron/src/ipc/git-sync.js:95-108 | the stored `remote` changes only after setRemote succeeds; a failure leaves remotes and store unchanged |
| GitSyncIpc.HandleGetRemote | packages/bruno-electron/src/ipc/git-sync.js:141-148 | success with the URL, null when the remote is absent; a thrown error becomes a failure |
| GitSlice.Fresh | packages/bruno-app/src/providers/ReduxStore/slices/git/index.js:27-40 | the defaults: not enabled or initialized, branch main, empty lists, nothing pending, no remote, sync, error or sync time, autoStage on |
| GitSlice.Apply | packages/bruno-app/src/providers/ReduxStore/slices/git/index.js:43-97 | definition of each per-collection reducer's effect on an existing entry; proved by ApplyKeepsConsistent, UpdateStatusCounts, InitializedStays, SyncEnds and SetEnabledOnlyEnabled |
| GitSlice.Updated | packages/bruno-app/src/providers/ReduxStore/slices/git/index.js:43-97 | definition of the guard `if (state.collections[uid])` around Apply; proved by UpdatedOnlyOwnEntry and UpdatedKeepsConsistent |
| GitSlice.ApplyKeepsConsistent | packages/bruno-app/src/providers/ReduxStore/slices/git/index.js:43-97 | a fresh entry and every status update have pendingChanges equal to the list lengths, and every other reducer keeps that so |
| GitSlice.UpdateStatusCounts | packages/bruno-app/src/providers/ReduxStore/slices/git/index.js:47-52 | pendingChanges counts both lists, a missing list as 0; the entry becomes initialized |
| GitSlice.InitializedStays | packages/bruno-app/src/providers/ReduxStore/slices/git/index.js:43-97 | no per-collection reducer sets initialized back to false |
| GitSlice.SyncEnds | packages/bruno-app/src/providers/ReduxStore/slices/git/index.js:72-97 | setGitError stores the error and stops syncing; setLastSync stamps the time, stops syncing and clears the error |
| GitSlice.SetEnabledOnlyEnabled | packages/bruno-app/src/providers/ReduxStore/slices/git/index.js:56-62 | setGitEnabled changes enabled and nothing else |
| GitSlice.UpdatedOnlyOwnEntry | packages/bruno-app/src/providers/ReduxStore/slices/git/index.js:43-97 | a reducer for an unknown uid does nothing; no reducer adds or removes entries or touches another uid |
| GitSlice.UpdatedKeepsConsistent | packages/bruno-app/src/providers/ReduxStore/slices/git/index.js:43-97 | every per-collection reducer keeps all entries' pending counts consistent |
| GitSlice.GitSliceState.constructor | packages/bruno-app/src/providers/ReduxStore/slices/git/index.js:3-10 | no collections, gitInstalled null, not checking |
| GitSlice.GitSliceState.SetGitInstalled | packages/bruno-app/src/providers/ReduxStore/slices/git/index.js:16-18 | stores the flag; nothing else changes |
| GitSlice.GitSliceState.SetCheckingGitInstalled | packages/bruno-app/src/providers/ReduxStore/slices/git/index.js:20-22 | stores the flag; nothing else changes |
| GitSlice.GitSliceState.InitializeGitState | packages/bruno-app/src/providers/ReduxStore/slices/git/index.js:24-41 | overwrites the uid's entry with the defaults, whatever was there |
| GitSlice.GitSliceState.UpdateEntry | packages/bruno-app/src/providers/ReduxStore/slices/git/index.js:43-97 | applies one reducer's change to the uid's entry if present, and keeps the store valid |
| GitSlice.GitSliceState.UpdateGitStatus | packages/bruno-app/src/providers/ReduxStore/slices/git/index.js:43-54 | the entry's lists, branch, count and initialized flag from the payload |
| GitSlice.GitSliceState.SetGitEnabled | packages/bruno-app/src/providers/ReduxStore/slices/git/index.js:56-62 | the entry's enabled flag |
| GitSlice.GitSliceState.SetGitSyncing | packages/bruno-app/src/providers/ReduxStore/slices/git/index.js:64-70 | the entry's syncing flag |
| GitSlice.GitSliceState.SetGitError | packages/bruno-app/src/providers/ReduxStore/slices/git/index.js:72-79 | the entry's error, with syncing off |
| GitSlice.GitSliceState.SetGitRemote | packages/bruno-app/src/providers/ReduxStore/slices/git/index.js:81-87 | the entry's remote |
| GitSlice.GitSliceState.SetLastSyncAt | packages/bruno-app/src/providers/ReduxStore/slices/git/index.js:89-97 | the entry's sync time, with syncing off and no error |
| GitSlice.GitSliceState.ClearGitState | packages/bruno-app/src/providers/ReduxStore/slices/git/index.js:99-102 | removes exactly that uid's entry |
| SyncStatus.StatusInfo | packages/bruno-app/src/components/GitSync/SyncStatus/index.js:12-50 | each colour carries one fixed text, yellow the pending count (then positive), and the dot pulses exactly for blue |
| SyncStatus.Shown | packages/bruno-app/src/components/GitSync/SyncStatus/index.js:8-10 | definition of the null guard: nothing for a missing or disabled entry, otherwise getStatusInfo; proved by ShownIffEnabled |
| SyncStatus.ShownIffEnabled | packages/bruno-app/src/components/GitSync/SyncStatus/index.js:8-10 | the indicator renders exactly for an existing, enabled entry |
| SyncStatus.ColorMeaning | packages/bruno-app/src/components/GitSync/SyncStatus/index.js:12-50 | each colour holds exactly on its rung of syncing > error > pending > synced > not synced; pulse exactly while syncing |
| SyncStatus.PendingTextPlural | packages/bruno-app/src/components/GitSync/SyncStatus/index.js:32 | the text starts with the count, which reads back as the count, and ends in "s" exactly when the count exceeds one |
| SyncStatus.YellowShowsCount | packages/bruno-app/src/components/GitSync/SyncStatus/index.js:29-35 | yellow means a positive count, shown in the text |
| SyncStatus.AfterLastSync | packages/bruno-app/src/components/GitSync/SyncStatus/index.js:13-43 | after setLastSync the indicator is green, or yellow while changes are pending; never blue or red |
| SyncStatus.AfterErrorOrSyncing | packages/bruno-app/src/components/GitSync/SyncStatus/index.js:13-27 | a non-empty error shows red and an empty one does not; starting a sync shows a pulsing blue "Syncing..." |

## Left out

- simple-git and the git executable are not modelled. Their answers are fields of `GitBackend.Backend`. Any git call may throw, as the fault schedule says.
- Regular-expression matching is not modelled. The six patterns are kept as their source text, including the `0-Z` range of the API Key pattern, which also admits `:;<=>?@`. Matching is the parameter `test`.
- The file system is a map from path to content.
- GitService.InitializeRepo: a `writeFileSync` that throws (disk full, permissions) is not modelled. In the model the write always succeeds.
- The clock (`new Date().toISOString()`) is the parameter `now`.
- electron-store persistence and its `clearInvalidConfig` recovery are out of scope. The store is its `gitConfigs` map.
- These git-service members are thin pass-throughs or exception probes, and are not modelled: `stageAll`, `pull`, `getHistory`, `getCurrentBranch` and `isGitInstalled`.
- These IPC handlers forward to one of the unmodelled calls above, and are not modelled: stage-all, pull, history and check-installed. The handlers unstage-file, push and is-repo are thin wrappers that return the result of the modelled `unstageFile`, `push` and `isGitRepo` (`GitService.UnstageFile`, `GitService.Push`, `GitService.IsGitRepo`) or its error as `{ success: false, error }`; the wrappers themselves are not modelled.
- Thunks over the renderer's IPC bridge (`actions.js`) are not modelled. Their effect on state is the reducers, which are modelled.
- React components, styled wrappers and event listeners are not modelled. The indicator is modelled only as its decision function and null guard.
- Concurrency is out of scope. The handlers are modelled one call at a time, as the code has no locks, queues, timeouts or cancellation.
- The code does not implement, and so the model does not have:
  - a remote URL given at init;
  - a message check in commit-and-push;
  - a partial-success result for commit-and-push (a failing push discards the commit result);
  - typed error kinds (every error is its message);
  - serialisation of concurrent calls on the same path.
- Node's Windows `path` rules are not modelled. Only the POSIX ones are.
- Payloads that are not strings or arrays (JavaScript's dynamic typing) are not modelled. Each payload is typed as the code uses it.
- `status.isClean()` is taken as reported by the backend.
- A remote listed without `refs.fetch` is a remote whose fetch URL is empty.

## Findings

| source | as written | input that shows it | evidently intended | confidence | as-written member | corrected member |
|---|---|---|---|---|---|---|
| packages/bruno-electron/src/git/git-service.js:115 | stageFile always calls `path.relative(collectionPath, filePath)`. That resolves a relative `filePath` against the process working directory, not the collection. | Process in `/`, collection `/c`, file `a.bru`: git, run in `/c`, receives `../a.bru`, which names `/a.bru` and not `/c/a.bru`. | Treat paths as unstageFile does (lines 103-105): pass a relative path through and relativise only an absolute one. | medium, not executed | GitService.StageAsWrittenMissesRelativeFile | GitService.StageNamesSameFile |
