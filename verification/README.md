# Local-first persistence and backup sync of the pouch tracker

This project models, in Dafny, the part of the pouch-tracking app that keeps its
data: the local store that holds the log list and the settings, the adapter that
backs both up as one JSON file in the user's cloud file store, and the app
component that applies every change locally first and mirrors it remotely when a
user is signed in. Backup sync is last writer wins. A push overwrites the backup
file, and a pull replaces local data.

- `types.dfy` (module `Types`): `Log`, `UserSettings`, `UserInfo` and `Option`.
- `local_storage.dfy` (module `LocalStorage`): the key-value medium as a
  `map<string, Stored>`. It holds the keys `snus_logs_v1` and `snus_settings_v1`,
  the defaults `{10, 8.0, 0.5, "$"}`, the fail-soft reads `GetLogs` and
  `GetSettings` (the stored fields spread over the defaults), and the class
  `LocalStore` with the writes `SaveLog`, `SetLogs`, `ClearLogs` and `SaveSettings`.
- `drive_backup.dfy` (module `DriveBackup`): the remote file store as a class
  `Drive`, holding a list of files `(id, name, trashed, content)`. Its endpoints
  are search, update, create and download. Each request is answered according to
  a `Reply` chosen by the environment:
  - `Delivered`: the request is carried out.
  - `Refused`: an error status, and nothing is done.
  - `Unreachable`: the client's fetch throws.

  This module also holds push (`SyncWithDrive`, as written, and
  `SyncWithDriveChecked`, corrected) and pull (`LoadFromDrive`). Their
  specifications are the functions `Upserted` (find-or-create), `BackupOf`,
  `PullOutcome` and `Adopt` (conditional replace). Lemmas about those functions
  give the round trip and the in-place update.
- `app.dfy` (module `SnusApp`): the class `App`, whose fields are the component's
  state (`logs`, `settings`, `user`, `isSyncing`, `isLoaded`). It has one method
  per handler. Its invariant `Valid()` says three things:
  - nothing is in flight between handlers;
  - the settings on screen are the stored ones;
  - once loaded, the logs on screen are the stored ones too.

  A ghost trace `activity` records each remote call together with the value
  the `isSyncing` field had while the call ran; `Valid()` gives that the flag
  is lowered again afterwards.

Answers from the sign-in provider and the file store are method parameters. An
`Option<UserInfo>` stands for sign-in or session restore. `Reply` values stand
for the remote requests. A log's id, time and day label, which the source takes
from the random-id generator and the clock, are also parameters.

## Model

| member | source | states |
|---|---|---|
| `LocalStorage.GetLogs` | services/storageService.ts:16-24 | a missing or unreadable logs entry reads as the empty list; a stored list reads back as itself |
| `LocalStorage.MergeSettings` | services/storageService.ts:44 | each field present in the stored object wins; each missing field comes from the defaults |
| `LocalStorage.GetSettings` | services/storageService.ts:41-48 | a missing or unreadable settings entry reads as exactly the defaults; a stored object is merged over them |
| `LocalStorage.PartialSettingsExample` | services/storageService.ts:6-11 | a store holding only `{dailyGoal: 5}` reads as `{5, 8.0, 0.5, "$"}` |
| `LocalStorage.LocalStore.SaveLog` | services/storageService.ts:26-31 | returns and writes the previous list with the log appended; settings and other keys unchanged |
| `LocalStorage.LogAppended` | services/storageService.ts:26-31 | one append reads back as the previous logs plus the new one; settings and every other key unchanged |
| `LocalStorage.AppendsInCallOrder` | services/storageService.ts:26-31 | any run of appends reads back in call order after the earlier entries, without dedup, and leaves the settings alone |
| `LocalStorage.FirstAppendExample` | services/storageService.ts:26-31 | one append to an empty store reads back as exactly that log |
| `LocalStorage.LocalStore.SetLogs` | services/storageService.ts:33-35 | after the overwrite the logs read back as given; settings unchanged |
| `LocalStorage.LocalStore.ClearLogs` | services/storageService.ts:37-39 | the logs key is deleted, not set to an empty list; logs then read as empty and settings are unchanged |
| `LocalStorage.LocalStore.SaveSettings` | services/storageService.ts:50-52 | the settings entry is overwritten with the object as given and reads back merged over the defaults; logs unchanged |
| `LocalStorage.SaveSettingsRoundTrip` | services/storageService.ts:50-52 | a full settings object written and read back is unchanged |
| `DriveBackup.FirstBackup` | services/storageService.ts:63 | finds the least position of a non-trashed file named `snustrack_backup.json`, or none when there is no such file |
| `DriveBackup.Matching` | services/storageService.ts:58-63 | the search listing is empty exactly when no backup file exists, and otherwise starts with the first backup file's id |
| `DriveBackup.Drive.Search` | services/storageService.ts:58-63 | a throw when unreachable; an error answer carries no file list; otherwise the listing of backup files |
| `DriveBackup.Patch` | services/storageService.ts:69-79 | an update by id rewrites the body of the files with that id only, keeping every id, name and trash flag and the number of files |
| `DriveBackup.PatchUnique` | services/storageService.ts:69-79 | with unique ids an update by id changes exactly one file |
| `DriveBackup.Drive.Update` | services/storageService.ts:69-79 | only a delivered request changes the store, by an update in place; ids stay unique and fresh |
| `DriveBackup.Drive.Create` | services/storageService.ts:80-96 | only a delivered request adds one file named `snustrack_backup.json` under a fresh id |
| `DriveBackup.UpsertFindsOrCreates` | services/storageService.ts:63-96 | after find-or-create the first backup file holds the payload; an existing one is overwritten in place under the same id with no file added, otherwise exactly one file is created |
| `DriveBackup.SecondPushUpdatesInPlace` | services/storageService.ts:69-79 | a second push with another payload updates the same file under the same id instead of duplicating it |
| `DriveBackup.SyncWithDrive` | services/storageService.ts:55-102 | as written: false only when a request throws; the payload is `{logs, settings}` read from the local store, which is never modified; the find-or-create outcome per answer |
| `DriveBackup.SyncReportsSuccessWithoutBackup` | services/storageService.ts:97 | with both requests refused, the push as written reports success while no backup exists |
| `DriveBackup.SyncDuplicatesBackup` | services/storageService.ts:63 | with a refused search and a delivered write, the push as written leaves a second backup file |
| `DriveBackup.SyncWithDriveChecked` | services/storageService.ts:55-102 | corrected push: success exactly when both requests succeed, after which the first backup file holds the whole local state; on failure the file store is unchanged |
| `DriveBackup.Drive.Download` | services/storageService.ts:113-118 | a throw when unreachable or when the body does not parse; an error answer parses to an object with neither key |
| `DriveBackup.LookupUnique` | services/storageService.ts:113-118 | with unique ids, downloading the listed id fetches that very file |
| `DriveBackup.Adopt` | services/storageService.ts:120-121 | logs are replaced only when `logs` is present, settings only when `settings` is present; every other key is untouched |
| `DriveBackup.PullOutcome` | services/storageService.ts:104-128 | a pull succeeds only with a listed backup file and a download that does not throw; a missing file means no data; a delivered download adopts the file's body; an error answer to the download still succeeds and adopts a keyless document, which changes nothing |
| `DriveBackup.BackupOf` | services/storageService.ts:110-118 | the body a pull fetches: none exactly when no non-trashed backup file exists, otherwise the body of such a file |
| `DriveBackup.Payload` | services/storageService.ts:65-67 | the pushed document carries the stored logs under `logs` and settings that read back as the stored settings |
| `DriveBackup.Upserted` | services/storageService.ts:63-96 | find-or-create keeps every existing file's id and backup status; it adds no file when a backup exists and exactly one backup file otherwise |
| `DriveBackup.LoadFromDrive` | services/storageService.ts:104-128 | on false the local store is exactly as before; on true each present key replaced the local entry |
| `DriveBackup.PushThenPullRestores` | services/storageService.ts:55-128 | push then pull against an otherwise untouched file store restores exactly the pushed logs and settings, whatever the pulling store held |
| `SnusApp.App.constructor` | App.tsx:11-16 | the component starts with no logs, the stored settings, signed out, not loaded and not syncing |
| `SnusApp.App.Init` | App.tsx:19-38 | after start-up the app is loaded and shows the stored logs and settings; with no restored session the user stays signed out and nothing is stored or pulled |
| `SnusApp.App.AdoptBackup` | App.tsx:49-56 | records the user, pulls while `isSyncing` is true and lowers it afterwards, then re-reads logs and settings from the local store |
| `SnusApp.PushedFiles` | App.tsx:41-45 | the file store after a handler's push, with the adapter as written: unchanged on a throw or a refused write; the whole local state in the first backup file when both requests succeed; one more backup file when the search is refused and the write succeeds |
| `SnusApp.App.SyncData` | App.tsx:41-45 | pushes the whole local state through the adapter as written while `isSyncing` is true, lowers it afterwards, and changes nothing local whatever the outcome |
| `SnusApp.App.HandleSignIn` | App.tsx:47-57 | no user from the provider changes nothing; otherwise the user is set, the pull is adopted and the view equals the store |
| `SnusApp.App.HandleSignOut` | App.tsx:59-62 | the user is cleared; logs, settings, the local store and the file store are unchanged |
| `SnusApp.NewLog` | App.tsx:65-72 | a new log has count 1 and the per-pouch amount of the settings in force when it was made |
| `SnusApp.App.HandleLog` | App.tsx:64-80 | the log is appended to the store and the shown logs equal the stored ones; a push follows if and only if a user is signed in, and never undoes the append |
| `SnusApp.App.HandleUpdateSettings` | App.tsx:82-98 | the shown settings become the new ones, which are written to the store; a push follows if and only if a user is signed in |
| `SnusApp.App.HandleClearData` | App.tsx:100-106 | the stored logs are deleted and the shown list emptied; settings unchanged; a push follows if and only if a user is signed in |

## Findings

| source | as written | input that shows it | evidently intended | confidence | as-written member | corrected member |
|---|---|---|---|---|---|---|
| services/storageService.ts:72-97 | the status of the upload answer is never checked, so an error answer returns true | an expired access token: the search and the upload both answer 401, and the push reports success while no backup file exists | a push reports success only when the backup was written | not executed; high | `DriveBackup.SyncReportsSuccessWithoutBackup` | `DriveBackup.SyncWithDriveChecked` |
| services/storageService.ts:59-63 | the status of the search answer is never checked, so an error answer is read as "no backup file" and a new file is created | a backup file exists, the search answers with a server error and the create goes through: two backup files remain | no write when the listing failed; at most one backup file per push | not executed; high | `DriveBackup.SyncDuplicatesBackup` | `DriveBackup.SyncWithDriveChecked` |

The app's `SyncData` follows the code as written and pushes with `SyncWithDrive`,
so the handlers' contracts include the duplicate file of the second row. The
corrected push, `SyncWithDriveChecked`, differs only when the file store answers
with an error status. The app ignores the push result either way.

## Left out

- Rendering, navigation and the `view` state: the views and the layout have no invariants of their own.
- The statistics of the home and stats views: they depend on locale date formatting and floating-point totals.
- CSV export: it depends on the DOM and on locale date formatting.
- The settings view's `handleChange`: it builds a one-field update, passes it to `HandleUpdateSettings` and writes the same object to the store a second time, which leaves the same state.
- The AI summary service and the ad plugin: remote or foreign calls with no effect on the stored data.
- The sign-in provider: `signIn` and session restore are `Option<UserInfo>` parameters. `initialize` and `signOut` have no effect on the data. Session restore (services/authService.ts:56-60) always answers with no session, so in the app `Init` runs with `None`.
- The access token: it is not passed along. A `Reply` stands for how the file store answers a request made with it.
- URLs, headers and the multipart layout of the create request: modelled as abstract search, update, create and download.
- The JSON encoder and parser: a stored or downloaded text is either a parsed value or unreadable. An empty stored string reads like an unreadable one, as it does in the source.
- LocalStorage.GetLogs: when the logs entry parses to a JSON value that is not a list, the source returns that value unchanged. The model reads it as the empty list.
- LocalStorage.MergeSettings: stored fields of the wrong type or `null` are not modelled. Every present field has its declared type.
- Exceptions from writing the local medium (a full quota, say) are not modelled. Every local write succeeds.
- DriveBackup.Drive.Update: a write whose fetch throws is taken as never applied. Whether the service applied it before the connection failed is not modelled.
- DriveBackup.Drive.Create: a create whose fetch throws is taken as never applied, as for updates. The "unchanged on failure" clauses of `SyncWithDrive` and `SyncWithDriveChecked` rest on this.
- The order in which the file store lists matching files is taken as the order of the file list.
- Overlapping pushes and interleaved handlers: every handler runs to completion before the next starts, so `isSyncing` is false between handlers.
- Integer widths: timestamps and counts are unbounded integers. Nicotine amounts and costs are only copied, and are kept as `real`.
