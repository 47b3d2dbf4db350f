# discourse-backup-sync web UI: the decision logic in Dafny

This project models the core of the Home Assistant add-on's web UI
(`discourse-backup-sync/web_ui.py`). The web UI sets up password-less SSH access
from the backup host to a Discourse server. It also lists and deletes the
backup archives already synced to local storage.

The model leaves out real processes, the filesystem and HTTP. It works over an
abstract host:

- **Files.** The regular files are a map from resolved path name to size and
  integer modification time. This covers the key pair `/data/ssh_key` and
  `/data/ssh_key.pub` and the backup archives.
- **Directories.** These are a set of resolved path names. A name is never both
  a file and a directory, and `/` and `/data` are directories (`Addon.Valid`).
- **Path resolution.** A path a handler receives is looked up the way the
  kernel does it (`Paths.Resolve`): it is split at `/`, empty components and
  `.` are skipped, `..` goes to the parent directory, and every step must start
  from an existing directory. `os.path.exists`, `os.remove` and `os.stat` act
  on the resolved name, so `/backup/discourse/../../etc/passwd` is the file
  `/etc/passwd`.
- **Configuration file.** This is the stored configuration at
  `/data/config.json`: no file, an unreadable file, or a decoded JSON
  document. For `os.path.exists` and `os.remove` it is a regular file like the
  others (`Addon.IsFile`), so a delete request that resolves to it removes it,
  and later loads give the defaults.
- **External programs.** Every run of `ssh-keyscan`, `sshpass`/`ssh`,
  `ssh-keygen` or `/backup.sh` is a parameter. Its outcome is one of: exit code
  with stdout and stderr, timeout, or another exception raised by the runner.
  Whether the configuration file can be written is also a parameter.

A handler's answer is a `Reply`: HTTP status, `success`, message and payload. An
exception that the handler does not catch becomes `Unhandled`, which is the
framework's own 500 page. Messages are either the literal texts the source
returns or `Error(cause)` for `str(e)`.

Modules:

- `JsonValues` (Json.dfy): JSON values, Python truthiness, and `key in data`.
- `Text` (Text.dfy): `startswith`, `endswith`, substring search, `strip()`,
  `split()`, and the decimal rendering of a count.
- `Wrappers` (Wrappers.dfy): `Option` and `Result`.
- `Process` (Process.dfy): process outcomes, exception causes and messages.
- `Config` (Config.dfy): defaults, load as a merge, whitelisted update.
- `Bootstrap` (Bootstrap.dfy): `setup_ssh_connection` as a function of step
  outcomes. Its result records which steps were attempted and whether the
  missing-sentinel warning was logged.
- `Paths` (Paths.dfy): `os.path.join`, directory entries, and path resolution.
- `Inventory` (Inventory.dfy): backup records, their grouping by category, and
  the stable newest-first sort.
- `WebUi` (WebUi.dfy): the class `Addon` that holds the host state, with one
  member per handler. Handlers that change state are methods with `modifies`.
  Read-only handlers are functions that read the object. `list_backups` is a
  method, because its loops scan the category directories.

Where the code and the intended design differ, the model follows the code:

- Unknown keys in the stored configuration are kept on load (`UnknownKeysKept`).
- The deletion guard is a plain string prefix test on the unresolved text. A
  sibling directory such as `/backup/discourse-x/...` passes it
  (`PrefixGuardIsTextual`). So does a path that climbs out with `..`, and the
  file it resolves to is then removed, wherever it is (`GuardAdmitsParent`,
  `DeleteThroughParent`, `TraversalDeletesOutside`).
- A delete request can remove the configuration file itself, when the storage
  path is a prefix of `/data/config.json` or the request climbs there with
  `..`. Later loads then give the defaults (`DeleteConfigFile`,
  `ConfigDeleteForgetsTarget`).
- The listing is sorted stably on `created` only. Ties are not broken by file
  name: among equal times the daily entries come first, then the weekly, then
  the monthly ones (`SortIsStable`, `CreatedAtKeepsGrouping`).
- `setup_ssh` saves host, user and port before generating a key, and before the
  bootstrap result is known.
- A keyscan timeout is caught by the keyscan step's own handler. It is therefore
  advisory like every other keyscan failure, and does not produce
  "Connection timeout". Only a timeout of the key installation or of the
  verification connection does (`TimeoutMessage`).
- Nothing serialises requests: there is no lock and no `Busy` answer.

## Model

| member | source | states |
|---|---|---|
| `JsonValues.Member` | discourse-backup-sync/web_ui.py:225 | Python `key in data`: a dict tests keys, a list tests elements, a string tests substrings; None, bools and numbers raise |
| `Text.OccursIffBlock` | discourse-backup-sync/web_ui.py:225 | `key in s` on strings holds exactly when some contiguous block of `s` equals `key` |
| `Text.StripLeft` | discourse-backup-sync/web_ui.py:332 | the result is the longest suffix not starting with white space; every dropped character is white space |
| `Text.StripRight` | discourse-backup-sync/web_ui.py:332 | the result is the longest prefix not ending with white space; every dropped character is white space |
| `Text.StripEmptyIffBlank` | discourse-backup-sync/web_ui.py:332 | `stdout.strip()` is empty exactly when every character of stdout is white space |
| `Text.StripIsTrimmedSlice` | discourse-backup-sync/web_ui.py:332-333 | the stripped text is a slice of the original with no white space at either end |
| `Text.Split` | discourse-backup-sync/web_ui.py:333 | `split(sep)` yields at least one piece, and no piece contains the separator |
| `Text.JoinSplit` | discourse-backup-sync/web_ui.py:333 | joining the pieces of `split(sep)` with the separator gives back the text |
| `Text.SplitConcat` | discourse-backup-sync/web_ui.py:372 | splitting `a + sep + b` gives the pieces of `a` followed by the pieces of `b` |
| `Config.Loaded` | discourse-backup-sync/web_ui.py:21-59 | the loaded configuration has every default key; a stored object's values win; keys are defaults plus stored keys; a missing, unreadable or non-object file gives exactly the defaults |
| `Config.SaveLoadRoundTrip` | discourse-backup-sync/web_ui.py:50-69 | saving a configuration that has all default keys and loading it back returns it unchanged |
| `Config.UnknownKeysKept` | discourse-backup-sync/web_ui.py:55 | a stored key outside the defaults survives the load with its value |
| `Config.ApplyUpdate` | discourse-backup-sync/web_ui.py:221-226 | fails exactly when some whitelisted key makes `in` or indexing raise; otherwise only the nine whitelisted keys present in the request change, to the request's values, and every other entry keeps its value |
| `Config.ObjectNeverRejected` | discourse-backup-sync/web_ui.py:222-226 | an object body never makes the copy loop raise |
| `Config.WithTarget` | discourse-backup-sync/web_ui.py:254-258 | host, user and port are set to the supplied values; every other entry is unchanged |
| `Bootstrap.SetupConnection` | discourse-backup-sync/web_ui.py:96-191 | the attempted steps are a prefix of the fixed pipeline; success holds iff the public key is readable, the password is a string, the installation exits 0 and the verification exits 0; verification is attempted iff the installation succeeded; the sentinel flag is set iff the installation succeeded without the sentinel text |
| `Bootstrap.KeyscanIsAdvisory` | discourse-backup-sync/web_ui.py:112-123 | no keyscan outcome, a timeout included, changes the result |
| `Bootstrap.CopyFailureIsFatal` | discourse-backup-sync/web_ui.py:153-155 | a non-zero `sshpass` exit fails with stderr, or stdout when stderr is empty; verification is not attempted and its outcome is irrelevant |
| `Bootstrap.SentinelIsAdvisory` | discourse-backup-sync/web_ui.py:157-158 | with exit 0, the installation's stdout, sentinel or not, does not change the result, the message or the steps run |
| `Bootstrap.VerificationDecides` | discourse-backup-sync/web_ui.py:164-184 | once the key is installed, success holds iff the batch-mode test exits 0; a non-zero exit reports its stderr |
| `Bootstrap.TimeoutMessage` | discourse-backup-sync/web_ui.py:186-188 | a timeout of the installation, or of the verification after a successful installation, gives (False, "Connection timeout") |
| `Paths.EntryName` | discourse-backup-sync/web_ui.py:370-372 | a listed entry's name is non-empty, has no `/`, is neither `.` nor `..`, and joining it to its directory gives back the entry's path |
| `Paths.JoinName` | discourse-backup-sync/web_ui.py:372 | `os.path.join` of a directory without a trailing `/` and a plain name puts exactly one `/` between them |
| `Paths.WalkAppend` | discourse-backup-sync/web_ui.py:407-408 | looking up two runs of components is looking up the first and then the second from where it ended |
| `Paths.ResolveJoin` | discourse-backup-sync/web_ui.py:372-373 | the joined path of a directory and a plain name resolves to that name's entry in the directory the first path resolves to |
| `Paths.ResolveUp` | discourse-backup-sync/web_ui.py:407-408 | a path followed by `/..` resolves to the parent of the directory the path resolves to |
| `Paths.ParentOfJoin` | discourse-backup-sync/web_ui.py:407-408 | the parent of a directory's entry is that directory |
| `Paths.ResolveRoot` | discourse-backup-sync/web_ui.py:407-408 | `/` resolves to itself |
| `Inventory.AppendKeepsGrouping` | discourse-backup-sync/web_ui.py:367-380 | appending a new record of the category being scanned keeps the list free of repeats and grouped daily, weekly, monthly |
| `Inventory.CreatedAtKeepsGrouping` | discourse-backup-sync/web_ui.py:367-383 | in a list grouped by category, the entries with one `created` time are still grouped daily, weekly, monthly |
| `Inventory.SortPermutes` | discourse-backup-sync/web_ui.py:383 | the sort is a permutation of the collected list |
| `Inventory.SortOrders` | discourse-backup-sync/web_ui.py:383 | the sorted list is ordered by `created`, newest first |
| `Inventory.SortIsStable` | discourse-backup-sync/web_ui.py:383 | entries with the same `created` keep their relative order, so ties are not broken by name |
| `Inventory.SortKeepsMembers` | discourse-backup-sync/web_ui.py:383 | the sorted list holds exactly the entries of the collected list |
| `Inventory.SortKeepsDistinct` | discourse-backup-sync/web_ui.py:383 | a list without repeated entries has none after sorting |
| `WebUi.Addon.ConfigFileExists` | discourse-backup-sync/web_ui.py:53 | `os.path.exists(CONFIG_PATH)` holds exactly when there is a stored configuration |
| `WebUi.Addon.RemoveFile` | discourse-backup-sync/web_ui.py:408 | `os.remove` of a regular file: afterwards it is gone and no other file changes; removing the configuration file leaves no stored configuration |
| `WebUi.Addon.SaveConfig` | discourse-backup-sync/web_ui.py:61-69 | returns whether the file could be written; the stored configuration is the saved map when it could, and unchanged otherwise |
| `WebUi.Addon.RemoveKeyFile` | discourse-backup-sync/web_ui.py:76-77 | a key path that is a regular file is removed; one that is a directory makes the removal raise and changes nothing; once no exception is raised the path does not exist |
| `WebUi.Addon.RemoveKeyFiles` | discourse-backup-sync/web_ui.py:75-77 | removes the private key and then the public key; the loop stops with an exception at the first key path that is a directory; no other file changes |
| `WebUi.Addon.GenerateSshKey` | discourse-backup-sync/web_ui.py:71-94 | returns True iff both old files could be removed and the generator exited 0; the new pair then replaces the old one; on failure only the removals have happened |
| `WebUi.Addon.UpdateConfig` | discourse-backup-sync/web_ui.py:214-233 | a body that is not JSON or raises answers 500 without saving; otherwise the saved configuration is the whitelisted update of the loaded one, the next load returns it, and a failed write answers 500 |
| `WebUi.Addon.SetupSsh` | discourse-backup-sync/web_ui.py:235-272 | missing or empty host, user or password answers 400 and changes nothing; otherwise host, user and port are saved whatever happens next; a key is generated only when the private key is absent; a failed generation answers 500 before any connection step; else the reply is the bootstrap's result |
| `WebUi.Addon.Connect` | discourse-backup-sync/web_ui.py:260-272 | with a private key present, no file changes and the reply is the bootstrap's; otherwise the key files are removed and regenerated, a failed generation answers 500 with "Failed to generate SSH key", and a successful one leaves exactly the new pair in place |
| `WebUi.Addon.TestConnection` | discourse-backup-sync/web_ui.py:274-304 | 400 iff host or user is not set or the private key is absent; success iff, beyond that, `ssh` exits 0; a non-zero exit reports stderr; a timeout or other exception answers 500 |
| `WebUi.Addon.TestBackupPath` | discourse-backup-sync/web_ui.py:306-343 | 400 iff host, user or remote path is unset or the key is absent; success iff `ssh` exits 0 with some non-blank output, returning its stripped lines and their count; 404 iff it exits non-zero or prints only white space |
| `WebUi.Addon.ResetSsh` | discourse-backup-sync/web_ui.py:345-356 | removes the key files; succeeds, including when they were already absent, iff neither key path is a directory, and then neither path exists |
| `WebUi.Addon.ListedEntry` | discourse-backup-sync/web_ui.py:370-379 | the record for one entry of a category directory is listed iff the entry's name ends in `.tar.gz`, and it is then the record built from that name, the category, the joined path and the entry's size and time |
| `WebUi.Addon.ScanCategory` | discourse-backup-sync/web_ui.py:369-380 | after scanning one existing category directory, the collected list holds exactly the `.tar.gz` records of the categories visited so far, without repeats, grouped by category |
| `WebUi.Addon.CollectBackups` | discourse-backup-sync/web_ui.py:366-381 | the category loop fails, naming the first category path that resolves to a regular file, iff one does; otherwise it collects every listed archive of the three categories exactly once, daily ones first, then weekly, then monthly |
| `WebUi.Addon.ListedShape` | discourse-backup-sync/web_ui.py:370-379 | a listed record's name is a plain name ending in `.tar.gz`, its category path resolves to a directory, its path is that path joined with its name and resolves to a regular file, and its size and time are that file's |
| `WebUi.Addon.ListBackups` | discourse-backup-sync/web_ui.py:358-388 | succeeds iff the storage path is a string and no category path resolves to a regular file, else 500 naming the first such path; the result is the stable newest-first sort of a scan that is grouped daily, weekly, monthly; it has no repeats and holds exactly the listed `.tar.gz` records of the existing category directories; among equal times daily entries precede weekly ones and weekly precede monthly |
| `WebUi.Addon.DeleteBackup` | discourse-backup-sync/web_ui.py:390-416 | an empty path answers 400; a path whose text does not start with the storage path answers 403; otherwise the file the path resolves to is removed and nothing else changes, and when that file is the configuration file the stored configuration is gone; a path resolving to a directory answers 500; a path that does not resolve to anything answers 404; the files or the stored configuration change iff the call succeeds, and a failed call changes neither |
| `WebUi.Addon.ManualSync` | discourse-backup-sync/web_ui.py:418-452 | 400 iff the private key is absent; on exit 0, success with the script's stdout; on a non-zero exit, 500 with its stderr; on a timeout, 500 "Backup sync timed out" |
| `WebUi.DataFileResolves` | discourse-backup-sync/web_ui.py:17-19 | with `/` and `/data` directories, any plain name inside `/data` resolves to `/data/name` |
| `WebUi.DataPathResolves` | discourse-backup-sync/web_ui.py:17-19 | the two key paths and the configuration path each resolve to themselves |
| `WebUi.KeyPathsAreNotConfig` | discourse-backup-sync/web_ui.py:17-19 | neither key path is the configuration path |
| `WebUi.DeleteTwice` | discourse-backup-sync/web_ui.py:397-412 | deleting the same file twice succeeds and then answers 404, and only the file its path resolves to is gone; when that file is the configuration file, the second request is checked against the default storage path and answers 403 if it no longer matches |
| `WebUi.PrefixGuardIsTextual` | discourse-backup-sync/web_ui.py:404-405 | `/etc/passwd` is rejected, but a sibling directory under the storage prefix passes the guard |
| `WebUi.GuardAdmitsParent` | discourse-backup-sync/web_ui.py:404-408 | for any storage path that resolves to a directory, the storage path followed by `/..` passes the guard and resolves to the directory above |
| `WebUi.UpTwiceAndOver` | discourse-backup-sync/web_ui.py:407-408 | from `/a/b`, the path `/a/b/../../c/d` resolves to `/c/d` |
| `WebUi.DefaultStorage` | discourse-backup-sync/web_ui.py:402 | without a configuration file the storage path is `/backup/discourse` |
| `WebUi.DeleteThroughParent` | discourse-backup-sync/web_ui.py:397-412 | for any storage path `/a/b`, a request for `/a/b/../../c/d` succeeds and removes exactly the file `/c/d` outside the storage tree |
| `WebUi.DeleteConfigFile` | discourse-backup-sync/web_ui.py:397-412 | when the storage path is a prefix of `/data/config.json`, deleting that path succeeds, the next load gives the defaults, and `test_connection` then answers 400 "Missing server configuration" |
| `WebUi.StoredTarget` | discourse-backup-sync/web_ui.py:50-56 | a stored object naming `/data` as storage path and a host and user loads with that storage path and a configured target |
| `WebUi.ConfigDeleteForgetsTarget` | discourse-backup-sync/web_ui.py:274-304 | with storage path `/data` and a saved target, `test_connection` answers "SSH key not configured" before the configuration file is deleted and "Missing server configuration" after |
| `WebUi.TraversalDeletesOutside` | discourse-backup-sync/web_ui.py:397-412 | with the default storage path, deleting `/backup/discourse/../../etc/passwd` succeeds and removes `/etc/passwd` |

## Left out

- The framework layer is not modelled: routing, `ProxyFix`, the `after_request`
  content-type hook, `index`/`render_template`, and JSON encoding of replies.
  `get_config` (lines 205-212) only returns the loaded configuration plus the
  key's presence, and is not modelled either.
- Running `ssh`, `sshpass`, `ssh-keyscan`, `ssh-keygen` and `/backup.sh` is not
  modelled; each run is an outcome parameter. The remote command strings and the
  remote `tail -5` limit are not modelled.
- `os.chmod` on the private key is assumed to succeed. Permission bits,
  `os.stat` logging, all logging, `time.sleep(2)` and `load_addon_options` are
  pure I/O and are left out.
- JSON numbers are integers. Floats are not modelled, and neither is the
  truthiness of `0.0`.
- The float `st_mtime` is an integer number of seconds.
- `Addon.SaveConfig`: a failed write is modelled as leaving the stored file
  unchanged. A partial write that `json.dump` could leave is not modelled.
- `Addon.GenerateSshKey`: a generator that exits non-zero is assumed to write
  neither key file.
- `Addon.ListBackups`: `os.listdir` returns entries in an unspecified order, so
  the order among archives of one category with the same `created` time is not
  stated. The reply is stated to be the stable sort of a scan grouped by
  category, so ties across categories are ordered daily, weekly, monthly.
- `Addon.ListBackups`: a subdirectory named `*.tar.gz` inside a category, and a
  broken symbolic link there, are not modelled; `os.listdir` yields regular
  files only.
- Symbolic links are not modelled. Every directory in the host is a real
  directory, and `..` always goes to the parent of the resolved directory.
- A relative path is resolved against `/`. The process's working directory is
  not modelled.
- `Addon.PublicKeyFile`: a public key path that does not resolve is reported as
  a missing file. The model does not separate `ENOTDIR` from `ENOENT`.
- `Addon.Valid`: `/` and `/data` are assumed to be directories, and
  `/data/config.json` is assumed never to be a directory. The add-on's
  container provides the first two, and the add-on itself only ever writes the
  third as a file.
- `Addon.Entries`: the configuration file has no size or time in the model and
  is not among the listed entries of `/data`. Its name does not end in
  `.tar.gz`, so no listing would report it.
- Concurrency is not modelled. The source has no lock and no `Busy` answer.
