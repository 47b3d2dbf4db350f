/** The add-on's request handlers over an abstract host: the regular files
    (key pair and backup archives, each with a size and a modification time),
    the directories, and the persisted configuration file. Every external
    program run, and whether the configuration file can be written, is a
    parameter of the handler that needs it. */
module WebUi {
  import opened Wrappers
  import opened JsonValues
  import opened Text
  import opened Process
  import opened Config
  import opened Bootstrap
  import opened Inventory
  import opened Paths

  /** The add-on's persistent volume, which holds the key pair. */
  const DataDir := "/data"

  /** The persisted configuration; its content is the add-on's `stored` field. */
  const ConfigPath := DataDir + "/config.json"

  const SshKeyPath := DataDir + "/ssh_key"
  const SshPubKeyPath := DataDir + "/ssh_key.pub"

  /** The key files, in the order both removal loops visit them. */
  const KeyPaths: seq<string> := [SshKeyPath, SshPubKeyPath]

  const DefaultStoragePath := "/backup/discourse"

  datatype FileStat = FileStat(size: nat, mtime: int)

  /** A run of `ssh-keygen`, and the two files it writes when it exits 0. */
  datatype KeygenRun = KeygenRun(outcome: ProcOutcome, privateKey: FileStat, publicKey: FileStat)

  /** A request body: not decodable as JSON, or the decoded document. */
  datatype Body = Malformed | Parsed(doc: Json)

  /** The members of a reply beside `success` and `message`. */
  datatype Payload =
    | NoPayload
    | Lines(lines: seq<string>)
    | Backups(backups: seq<Backup>)
    | SyncOutput(output: string)
    | SyncError(error: string)

  /** A JSON reply with its HTTP status, or an exception the handler does not
      catch (the framework then answers with its own 500 page). */
  datatype Reply =
    | Reply(status: int, success: bool, message: Message, payload: Payload)
    | Unhandled

  function Success(message: Message): Reply
  {
    Reply(200, true, message, NoPayload)
  }

  function Failure(status: int, message: Message): Reply
  {
    Reply(status, false, message, NoPayload)
  }

  /** How `setup_ssh` answers with the `(success, message)` of the bootstrap. */
  function ConnectionReply(b: Outcome): Reply
  {
    if b.ok then Success(b.message) else Failure(500, b.message)
  }

  /** The files left by the removal loop: it stops at the first key path that is a directory. */
  function AfterKeyRemoval(files: map<string, FileStat>, dirs: set<string>): map<string, FileStat>
  {
    if SshKeyPath in dirs then files
    else if SshPubKeyPath in dirs then files - {SshKeyPath}
    else files - {SshKeyPath, SshPubKeyPath}
  }

  /** The exception that ends the removal loop, if any. */
  function KeyRemovalError(dirs: set<string>): Option<Cause>
  {
    if SshKeyPath in dirs then Some(IsDirectory(SshKeyPath))
    else if SshPubKeyPath in dirs then Some(IsDirectory(SshPubKeyPath))
    else None
  }

  /** `generate_ssh_key` returns True: both old files could be removed and the generator exited 0. */
  predicate KeygenSucceeds(keygen: KeygenRun, dirs: set<string>)
  {
    KeyRemovalError(dirs).None? && Succeeded(keygen.outcome)
  }

  /** `all([host, user, password])` on the request object. */
  predicate HasCredentials(fields: map<string, Json>)
  {
    Truthy(Get(fields, "host")) && Truthy(Get(fields, "user")) && Truthy(Get(fields, "password"))
  }

  /** A `setup_ssh` request that passes input validation. */
  predicate IsBootstrapRequest(body: Body)
  {
    body.Parsed? && body.doc.JObject? && HasCredentials(body.doc.fields)
  }

  /** The configuration `setup_ssh` saves: the loaded one with the request's
      host, user and port (22 when the request has none). */
  function TargetOf(config: ConfigMap, fields: map<string, Json>): ConfigMap
  {
    WithTarget(config, Get(fields, "host"), Get(fields, "user"), GetOr(fields, "port", JNum(22)))
  }

  class Addon {
    var files: map<string, FileStat>
    var dirs: set<string>
    var stored: StoredConfig

    /** A resolved path is a regular file or a directory, never both; the root
        and the persistent volume are directories. The configuration file is
        held by `stored` rather than by `files`, and is never a directory. */
    ghost predicate Valid()
      reads this
    {
      files.Keys !! dirs && "/" in dirs && DataDir in dirs && ConfigPath !in files && ConfigPath !in dirs
    }

    constructor (files: map<string, FileStat>, dirs: set<string>, stored: StoredConfig)
      requires files.Keys !! dirs && "/" in dirs && DataDir in dirs && ConfigPath !in files && ConfigPath !in dirs
      ensures Valid()
      ensures this.files == files && this.dirs == dirs && this.stored == stored
    {
      this.files := files;
      this.dirs := dirs;
      this.stored := stored;
    }

    /** The resolved name `p` is a regular file: one of `files`, or the
        configuration file while there is one. */
    predicate IsFile(p: string)
      reads this
    {
      p in files || (p == ConfigPath && !stored.NoFile?)
    }

    /** `path` resolves to a regular file. */
    predicate ResolvesToFile(path: string)
      reads this
    {
      var at := Resolve(dirs, path);
      at.Some? && IsFile(at.value)
    }

    /** `path` resolves to a directory. */
    predicate ResolvesToDir(path: string)
      reads this
    {
      var at := Resolve(dirs, path);
      at.Some? && at.value in dirs
    }

    /** `os.path.exists(path)`. */
    predicate Exists(path: string)
      reads this
    {
      ResolvesToFile(path) || ResolvesToDir(path)
    }

    /** Opening the public key file for reading. */
    function PublicKeyFile(): PublicKey
      reads this
    {
      if ResolvesToFile(SshPubKeyPath) then Readable
      else if ResolvesToDir(SshPubKeyPath) then Unreadable(IsDirectory(SshPubKeyPath))
      else Unreadable(NoSuchFile(SshPubKeyPath))
    }

    /** `config.get('backup_storage_path', '/backup/discourse')` on the loaded configuration. */
    function StoragePath(): Json
      reads this
    {
      GetOr(Loaded(stored), StorageKey, JStr(DefaultStoragePath))
    }

    /** `os.path.exists(CONFIG_PATH)` holds exactly when there is a stored configuration. */
    lemma ConfigFileExists()
      requires Valid()
      ensures Exists(ConfigPath) <==> !stored.NoFile?
    {
      DataPathResolves(dirs, ConfigPath);
    }

    /** `os.remove` of the resolved name of a regular file; removing the
        configuration file leaves no stored configuration. */
    method RemoveFile(p: string)
      requires Valid() && IsFile(p)
      modifies this`files, this`stored
      ensures Valid()
      ensures !IsFile(p)
      ensures files == old(files) - {p}
      ensures stored == if p == ConfigPath then NoFile else old(stored)
    {
      if p == ConfigPath {
        stored := NoFile;
      } else {
        files := files - {p};
      }
    }

    /** `save_config`: stores the configuration when the file can be written. */
    method SaveConfig(config: ConfigMap, writable: bool) returns (saved: bool)
      modifies this`stored
      ensures saved == writable
      ensures stored == if writable then Saved(JObject(config)) else old(stored)
    {
      if writable {
        stored := Saved(JObject(config));
      }
      saved := writable;
    }

    /** One step of the removal loop: `if os.path.exists(path): os.remove(path)`.
        A regular file goes; a directory makes `os.remove` raise. */
    method RemoveKeyFile(path: string) returns (err: Option<Cause>)
      requires Valid() && Resolve(dirs, path) == Some(path) && path != ConfigPath
      modifies this`files
      ensures Valid()
      ensures path in dirs ==> err == Some(IsDirectory(path)) && files == old(files)
      ensures path !in dirs ==> err.None? && files == old(files) - {path}
      ensures err.None? ==> !Exists(path)
    {
      if Exists(path) {
        if path in files {
          files := files - {path};
        } else {
          return Some(IsDirectory(path));
        }
      }
      return None;
    }

    /** The loop `for path in [SSH_KEY_PATH, SSH_PUB_KEY_PATH]: if exists: remove`
        shared by `generate_ssh_key` and `reset_ssh`. Removing a directory raises,
        which ends the loop; the private key is never left as a regular file. */
    method RemoveKeyFiles() returns (err: Option<Cause>)
      requires Valid()
      modifies this`files
      ensures Valid()
      ensures files == AfterKeyRemoval(old(files), dirs)
      ensures err == KeyRemovalError(dirs)
      ensures SshKeyPath !in files
      ensures err.None? ==> SshPubKeyPath !in files
    {
      assert |KeyPaths| == 2 && KeyPaths[0] == SshKeyPath && KeyPaths[1] == SshPubKeyPath;
      assert SshKeyPath != SshPubKeyPath by { assert |SshKeyPath| != |SshPubKeyPath|; }
      KeyPathsAreNotConfig();
      var i := 0;
      while i < |KeyPaths|
        invariant 0 <= i <= |KeyPaths|
        invariant Valid()
        invariant forall j :: 0 <= j < i ==> KeyPaths[j] !in dirs
        invariant forall p :: p in files <==> p in old(files) && p !in KeyPaths[..i]
        invariant forall p :: p in files ==> files[p] == old(files)[p]
      {
        var path := KeyPaths[i];
        assert KeyPaths[..i + 1] == KeyPaths[..i] + [path];
        DataPathResolves(dirs, path);
        var e := RemoveKeyFile(path);
        if e.Some? {
          if i == 0 {
            assert files == old(files);
          } else {
            assert files == old(files) - {SshKeyPath};
          }
          return e;
        }
        i := i + 1;
      }
      assert KeyPaths[..i] == KeyPaths;
      assert files == old(files) - {SshKeyPath, SshPubKeyPath};
      return None;
    }

    /** `generate_ssh_key`: removes both key files, runs the generator, and on
        exit 0 the new pair is in place. */
    method GenerateSshKey(keygen: KeygenRun) returns (ok: bool)
      requires Valid()
      modifies this`files
      ensures Valid()
      ensures ok <==> KeygenSucceeds(keygen, dirs)
      ensures ok ==> files == AfterKeyRemoval(old(files), dirs)[SshKeyPath := keygen.privateKey][SshPubKeyPath := keygen.publicKey]
      ensures !ok ==> files == AfterKeyRemoval(old(files), dirs)
    {
      var err := RemoveKeyFiles();
      if err.Some? {
        return false;
      }
      if !Succeeded(keygen.outcome) {
        return false;
      }
      KeyPathsAreNotConfig();
      files := files[SshKeyPath := keygen.privateKey][SshPubKeyPath := keygen.publicKey];
      return true;
    }

    /** `update_config`: copies the whitelisted keys present in the request over
        the loaded configuration and saves it; any exception answers 500. */
    method UpdateConfig(body: Body, writable: bool) returns (r: Reply)
      modifies this`stored
      ensures body.Malformed? ==> r == Failure(500, Error(BadRequestBody)) && stored == old(stored)
      ensures body.Parsed? && Rejects(body.doc) ==> r == Failure(500, Error(TypeMismatch)) && stored == old(stored)
      ensures body.Parsed? && !Rejects(body.doc) && !writable ==>
        r == Failure(500, Says("Failed to save configuration")) && stored == old(stored)
      ensures body.Parsed? && !Rejects(body.doc) && writable ==>
        && r == Success(Says("Configuration saved"))
        && stored.Saved? && stored.doc.JObject?
        && IsUpdate(stored.doc.fields, old(Loaded(stored)), body.doc)
        && Loaded(stored) == stored.doc.fields
    {
      if body.Malformed? {
        return Failure(500, Error(BadRequestBody));
      }
      var config := Loaded(stored);
      var updated := ApplyUpdate(config, body.doc);
      if updated.Fail? {
        return Failure(500, Error(updated.error));
      }
      var saved := SaveConfig(updated.value, writable);
      if saved {
        SaveLoadRoundTrip(updated.value);
        r := Success(Says("Configuration saved"));
      } else {
        r := Failure(500, Says("Failed to save configuration"));
      }
    }

    /** `setup_ssh`: validates the request, saves the target before anything else
        is tried, generates a key pair only when there is no private key, then
        runs the bootstrap. */
    method SetupSsh(body: Body, writable: bool, keygen: KeygenRun,
                    keyscan: ProcOutcome, copy: ProcOutcome, verify: ProcOutcome) returns (r: Reply)
      requires Valid()
      modifies this`files, this`stored
      ensures Valid()
      ensures body.Malformed? ==> r == Failure(400, Says("Invalid JSON data"))
      ensures body.Parsed? && !body.doc.JObject? ==> r == Unhandled
      ensures body.Parsed? && body.doc.JObject? && !HasCredentials(body.doc.fields) ==>
        r == Failure(400, Says("Missing required fields"))
      ensures !IsBootstrapRequest(body) ==> files == old(files) && stored == old(stored)
      ensures IsBootstrapRequest(body) ==>
        stored == if writable then Saved(JObject(TargetOf(old(Loaded(stored)), body.doc.fields))) else old(stored)
      ensures IsBootstrapRequest(body) && old(Exists(SshKeyPath)) ==>
        && files == old(files)
        && r == ConnectionReply(SetupConnection(PublicKeyFile(), Get(body.doc.fields, "password"), keyscan, copy, verify))
      ensures IsBootstrapRequest(body) && !old(Exists(SshKeyPath)) && !KeygenSucceeds(keygen, dirs) ==>
        && files == AfterKeyRemoval(old(files), dirs)
        && r == Failure(500, Says("Failed to generate SSH key"))
      ensures IsBootstrapRequest(body) && !old(Exists(SshKeyPath)) && KeygenSucceeds(keygen, dirs) ==>
        && files == old(files)[SshKeyPath := keygen.privateKey][SshPubKeyPath := keygen.publicKey]
        && r == ConnectionReply(SetupConnection(Readable, Get(body.doc.fields, "password"), keyscan, copy, verify))
    {
      if body.Malformed? {
        return Failure(400, Says("Invalid JSON data"));
      }
      if !body.doc.JObject? {
        return Unhandled;
      }
      var fields := body.doc.fields;
      var host, port := Get(fields, "host"), GetOr(fields, "port", JNum(22));
      var user, password := Get(fields, "user"), Get(fields, "password");
      if !(Truthy(host) && Truthy(user) && Truthy(password)) {
        return Failure(400, Says("Missing required fields"));
      }
      var config := WithTarget(Loaded(stored), host, user, port);
      DataPathResolves(dirs, SshKeyPath);
      KeyPathsAreNotConfig();
      var _ := SaveConfig(config, writable);
      r := Connect(password, keygen, keyscan, copy, verify);
    }

    /** The second half of `setup_ssh`: generates a key pair when there is no
        private key, then runs the bootstrap with the public key on disk. */
    method Connect(password: Json, keygen: KeygenRun,
                   keyscan: ProcOutcome, copy: ProcOutcome, verify: ProcOutcome) returns (r: Reply)
      requires Valid()
      modifies this`files
      ensures Valid()
      ensures old(Exists(SshKeyPath)) ==>
        files == old(files) && r == ConnectionReply(SetupConnection(PublicKeyFile(), password, keyscan, copy, verify))
      ensures !old(Exists(SshKeyPath)) && !KeygenSucceeds(keygen, dirs) ==>
        files == AfterKeyRemoval(old(files), dirs) && r == Failure(500, Says("Failed to generate SSH key"))
      ensures !old(Exists(SshKeyPath)) && KeygenSucceeds(keygen, dirs) ==>
        && files == old(files)[SshKeyPath := keygen.privateKey][SshPubKeyPath := keygen.publicKey]
        && r == ConnectionReply(SetupConnection(Readable, password, keyscan, copy, verify))
    {
      DataPathResolves(dirs, SshKeyPath);
      DataPathResolves(dirs, SshPubKeyPath);
      KeyPathsAreNotConfig();
      if !Exists(SshKeyPath) {
        var generated := GenerateSshKey(keygen);
        if !generated {
          return Failure(500, Says("Failed to generate SSH key"));
        }
      }
      r := ConnectionReply(SetupConnection(PublicKeyFile(), password, keyscan, copy, verify));
    }

    /** The remote host and user are both configured. */
    predicate ConnectionConfigured()
      reads this
    {
      var config := Loaded(stored);
      Truthy(Get(config, "remote_host")) && Truthy(Get(config, "remote_user"))
    }

    /** `test_connection`: needs a configured target and a private key, then
        succeeds exactly when the batch-mode `ssh` exits 0. */
    function TestConnection(run: ProcOutcome): (r: Reply)
      reads this
      ensures r.Reply? && r.payload == NoPayload
      ensures r.status == 400 <==> !ConnectionConfigured() || !Exists(SshKeyPath)
      ensures r.success <==> ConnectionConfigured() && Exists(SshKeyPath) && Succeeded(run)
      ensures r.success <==> r.status == 200
      ensures !ConnectionConfigured() ==> r.message == Says("Missing server configuration")
      ensures ConnectionConfigured() && !Exists(SshKeyPath) ==> r.message == Says("SSH key not configured")
      ensures ConnectionConfigured() && Exists(SshKeyPath) && run.Exited? && run.code != 0 ==>
        r == Failure(500, Says("Connection failed: " + run.stderr))
      ensures ConnectionConfigured() && Exists(SshKeyPath) && !run.Exited? ==>
        r == Failure(500, Error(ProcessFailure(run.description)))
    {
      if !ConnectionConfigured() then Failure(400, Says("Missing server configuration"))
      else if !Exists(SshKeyPath) then Failure(400, Says("SSH key not configured"))
      else match run
        case Exited(code, _, stderr) =>
          if code == 0 then Success(Says("Connection successful"))
          else Failure(500, Says("Connection failed: " + stderr))
        case TimedOut(description) => Failure(500, Error(ProcessFailure(description)))
        case RunError(description) => Failure(500, Error(ProcessFailure(description)))
    }

    /** The remote host, user and backup path are all configured. */
    predicate BackupPathConfigured()
      reads this
    {
      var config := Loaded(stored);
      Truthy(Get(config, "remote_host")) && Truthy(Get(config, "remote_user"))
      && Truthy(Get(config, "remote_backup_path"))
    }

    /** `test_backup_path`: with a configured target and a private key, the remote
        listing succeeds exactly when `ssh` exits 0 with some non-blank output,
        and then its stripped lines are returned; otherwise the answer is 404. */
    function TestBackupPath(run: ProcOutcome): (r: Reply)
      reads this
      ensures r.Reply?
      ensures r.status == 400 <==> !BackupPathConfigured() || !Exists(SshKeyPath)
      ensures r.success <==> r.status == 200
      ensures r.success <==>
        BackupPathConfigured() && Exists(SshKeyPath) && Succeeded(run)
        && exists i :: 0 <= i < |run.stdout| && !IsSpace(run.stdout[i])
      ensures r.status == 404 <==>
        BackupPathConfigured() && Exists(SshKeyPath) && run.Exited?
        && (run.code != 0 || forall i :: 0 <= i < |run.stdout| ==> IsSpace(run.stdout[i]))
      ensures r.success ==>
        && r.payload.Lines? && |r.payload.lines| >= 1 && JoinWith(r.payload.lines, '\n') == Strip(run.stdout)
        && (forall i :: 0 <= i < |r.payload.lines| ==> '\n' !in r.payload.lines[i])
        && r.message == Says("Found " + Decimal(|r.payload.lines|) + " recent backup(s)")
      ensures BackupPathConfigured() && Exists(SshKeyPath) && !run.Exited? ==>
        r == Failure(500, Error(ProcessFailure(run.description)))
    {
      if !BackupPathConfigured() then Failure(400, Says("Missing configuration"))
      else if !Exists(SshKeyPath) then Failure(400, Says("SSH key not configured"))
      else match run
        case Exited(code, stdout, _) =>
          StripEmptyIffBlank(stdout);
          if code == 0 && Strip(stdout) != "" then
            var lines := Split(Strip(stdout), '\n');
            JoinSplit(Strip(stdout), '\n');
            Reply(200, true, Says("Found " + Decimal(|lines|) + " recent backup(s)"), Lines(lines))
          else
            Failure(404, Says("No backups found or path does not exist"))
        case TimedOut(description) => Failure(500, Error(ProcessFailure(description)))
        case RunError(description) => Failure(500, Error(ProcessFailure(description)))
    }

    /** `reset_ssh`: afterwards neither key file exists; it answers 500 only when
        a key path is a directory. */
    method ResetSsh() returns (r: Reply)
      requires Valid()
      modifies this`files
      ensures Valid()
      ensures files == AfterKeyRemoval(old(files), dirs)
      ensures r.Reply?
      ensures r.success <==> SshKeyPath !in dirs && SshPubKeyPath !in dirs
      ensures r.success ==> !Exists(SshKeyPath) && !Exists(SshPubKeyPath)
      ensures r.success ==> r == Success(Says("SSH configuration reset"))
      ensures !r.success ==> KeyRemovalError(dirs).Some? && r == Failure(500, Error(KeyRemovalError(dirs).value))
    {
      DataPathResolves(dirs, SshKeyPath);
      DataPathResolves(dirs, SshPubKeyPath);
      KeyPathsAreNotConfig();
      var err := RemoveKeyFiles();
      if err.Some? {
        r := Failure(500, Error(err.value));
      } else {
        r := Success(Says("SSH configuration reset"));
      }
    }

    /** The entries `os.listdir` reports for the resolved directory `at` that are
        regular files with a size and a time; the configuration file is not one
        of them, and its name does not end in `.tar.gz` anyway. */
    function Entries(at: string): set<string>
      reads this
    {
      set p | p in files.Keys && IsEntry(at, p)
    }

    /** `b` is the record `list_backups` builds for an archive in the category
        subdirectory of `base` named by `b.kind`: its name is the entry's name,
        its path is the category path joined with that name, and its size and
        time are those of the file that path resolves to. */
    ghost predicate IsListed(base: string, b: Backup)
      reads this
    {
      var dir := Join(base, KindName(b.kind));
      var at := Resolve(dirs, dir);
      && at.Some? && at.value in dirs
      && Join(at.value, b.filename) in Entries(at.value)
      && b.filename == EntryName(at.value, Join(at.value, b.filename))
      && EndsWith(b.filename, ArchiveSuffix)
      && b.path == Join(dir, b.filename)
      && b.size == files[Join(at.value, b.filename)].size
      && b.created == files[Join(at.value, b.filename)].mtime
    }

    /** Among the records of category `i`, the one for the entry `path` of the
        category directory is listed exactly when the entry's name ends in
        `.tar.gz`, and it is then the record the scan builds. */
    lemma ListedEntry(base: string, i: nat, at: string, path: string)
      requires i < |Kinds| && Resolve(dirs, Join(base, KindName(Kinds[i]))) == Some(at) && at in dirs
      requires path in Entries(at)
      ensures forall b: Backup :: b.kind == Kinds[i] && Join(at, b.filename) == path ==>
        (IsListed(base, b) <==>
          var dir, name := Join(base, KindName(Kinds[i])), EntryName(at, path);
          EndsWith(name, ArchiveSuffix) && b == Backup(name, Kinds[i], files[path].size, files[path].mtime, Join(dir, name)))
    {
    }

    /** The inner loop of `list_backups` over `os.listdir` of one existing category
        directory: appends a record for every entry whose name ends in `.tar.gz`,
        with the size and time `os.stat` reports for the joined path. */
    method ScanCategory(base: string, i: nat, found: seq<Backup>) returns (scanned: seq<Backup>)
      requires i < |Kinds| && ResolvesToDir(Join(base, KindName(Kinds[i])))
      requires Distinct(found) && GroupedByKind(found)
      requires forall b :: b in found <==> IsListed(base, b) && KindIndex(b.kind) < i
      ensures Distinct(scanned) && GroupedByKind(scanned)
      ensures forall b :: b in scanned <==> IsListed(base, b) && KindIndex(b.kind) <= i
    {
      var kind := Kinds[i];
      var dir := Join(base, KindName(kind));
      var at := Resolve(dirs, dir).value;
      var pending := Entries(at);
      scanned := found;
      while pending != {}
        invariant pending <= Entries(at)
        invariant Distinct(scanned) && GroupedByKind(scanned)
        invariant forall j :: 0 <= j < |scanned| ==> KindIndex(scanned[j].kind) <= i
        invariant forall b :: b in scanned <==>
          IsListed(base, b) && (KindIndex(b.kind) < i || (b.kind == kind && Join(at, b.filename) !in pending))
        decreases |pending|
      {
        var path :| path in pending;
        pending := pending - {path};
        ListedEntry(base, i, at, path);
        var name := EntryName(at, path);
        if EndsWith(name, ArchiveSuffix) {
          var filepath := Join(dir, name);
          ResolveJoin(dirs, dir, name, at);
          var stat := files[Resolve(dirs, filepath).value];
          var b := Backup(name, kind, stat.size, stat.mtime, filepath);
          AppendKeepsGrouping(scanned, b, i);
          scanned := scanned + [b];
        }
        forall b: Backup
          ensures b in scanned <==>
            IsListed(base, b) && (KindIndex(b.kind) < i || (b.kind == kind && Join(at, b.filename) !in pending))
        {
          if b.kind == kind && Join(at, b.filename) == path {
            assert b in scanned <==> IsListed(base, b);
          }
        }
      }
    }

    /** The first category path that resolves to a regular file: `os.listdir`
        raises `NotADirectoryError` there. */
    ghost predicate BlockedAt(base: string, i: nat)
      reads this
    {
      && i < |Kinds|
      && ResolvesToFile(Join(base, KindName(Kinds[i])))
      && forall j :: 0 <= j < i ==> !ResolvesToFile(Join(base, KindName(Kinds[j])))
    }

    /** The outer loop of `list_backups` over the three categories: a missing
        directory is skipped, a regular file in its place raises. */
    method CollectBackups(base: string) returns (res: Result<seq<Backup>, Cause>)
      ensures res.Ok? <==> forall k :: k in Kinds ==> !ResolvesToFile(Join(base, KindName(k)))
      ensures res.Fail? ==> exists i: nat :: BlockedAt(base, i) && res.error == NotDirectory(Join(base, KindName(Kinds[i])))
      ensures res.Ok? ==> Distinct(res.value) && GroupedByKind(res.value)
      ensures res.Ok? ==> forall b :: b in res.value <==> IsListed(base, b)
    {
      var found: seq<Backup> := [];
      var i := 0;
      while i < |Kinds|
        invariant 0 <= i <= |Kinds|
        invariant forall j :: 0 <= j < i ==> !ResolvesToFile(Join(base, KindName(Kinds[j])))
        invariant Distinct(found) && GroupedByKind(found)
        invariant forall b :: b in found <==> IsListed(base, b) && KindIndex(b.kind) < i
      {
        var dir := Join(base, KindName(Kinds[i]));
        if ResolvesToFile(dir) {
          assert BlockedAt(base, i);
          return Fail(NotDirectory(dir));
        }
        if ResolvesToDir(dir) {
          found := ScanCategory(base, i, found);
        }
        i := i + 1;
      }
      return Ok(found);
    }

    /** The record of a listed archive: its name is a plain name ending in
        `.tar.gz`, its category path resolves to a directory, and its path,
        the category path joined with its name, resolves to the file whose size
        and time it carries. */
    lemma ListedShape(base: string, b: Backup)
      requires IsListed(base, b)
      ensures IsName(b.filename) && EndsWith(b.filename, ArchiveSuffix)
      ensures ResolvesToDir(Join(base, KindName(b.kind)))
      ensures b.path == Join(Join(base, KindName(b.kind)), b.filename)
      ensures ResolvesToFile(b.path) && Resolve(dirs, b.path).value in files
      ensures var at := Resolve(dirs, b.path).value;
        b.size == files[at].size && b.created == files[at].mtime
    {
      var dir := Join(base, KindName(b.kind));
      var at := Resolve(dirs, dir).value;
      ResolveJoin(dirs, dir, b.filename, at);
    }

    /** `list_backups`: every `.tar.gz` file directly inside the daily, weekly and
        monthly subdirectories of the storage path, gathered category by category
        and then stably sorted newest first. */
    method ListBackups() returns (r: Reply)
      ensures r.Reply?
      ensures r.success <==>
        StoragePath().JStr? && forall k :: k in Kinds ==> !ResolvesToFile(Join(StoragePath().s, KindName(k)))
      ensures !StoragePath().JStr? ==> r == Failure(500, Error(TypeMismatch))
      ensures StoragePath().JStr? && !r.success ==>
        exists i: nat :: BlockedAt(StoragePath().s, i)
          && r == Failure(500, Error(NotDirectory(Join(StoragePath().s, KindName(Kinds[i])))))
      ensures r.success ==>
        && r.status == 200 && r.message == NoMessage && r.payload.Backups?
        && (exists s :: r.payload.backups == SortNewestFirst(s)
              && Distinct(s) && GroupedByKind(s)
              && (forall b :: b in s <==> IsListed(StoragePath().s, b)))
        && NewestFirst(r.payload.backups)
        && Distinct(r.payload.backups)
        && (forall b :: b in r.payload.backups <==> IsListed(StoragePath().s, b))
        && (forall t :: GroupedByKind(CreatedAt(r.payload.backups, t)))
    {
      var storage := StoragePath();
      if !storage.JStr? {
        return Failure(500, Error(TypeMismatch));
      }
      var collected := CollectBackups(storage.s);
      if collected.Fail? {
        return Failure(500, Error(collected.error));
      }
      var found := collected.value;
      var sorted := SortNewestFirst(found);
      SortOrders(found);
      SortKeepsDistinct(found);
      SortKeepsMembers(found);
      forall t ensures GroupedByKind(CreatedAt(sorted, t)) {
        SortIsStable(found, t);
        CreatedAtKeepsGrouping(found, t);
      }
      r := Reply(200, true, NoMessage, Backups(sorted));
    }

    /** `delete_backup`: the guard compares the path's text with the storage
        path; existence and removal then go by the file the path resolves to,
        which may be the configuration file itself. */
    method DeleteBackup(body: Body) returns (r: Reply)
      requires Valid()
      modifies this`files, this`stored
      ensures Valid()
      ensures r.Reply?
      ensures r.success <==> files != old(files) || stored != old(stored)
      ensures r.success ==> r == Success(Says("Backup deleted successfully"))
      ensures !r.success ==> files == old(files) && stored == old(stored)
      ensures body.Malformed? ==> r == Failure(500, Error(BadRequestBody))
      ensures body.Parsed? && !body.doc.JObject? ==> r == Failure(500, Error(TypeMismatch))
      ensures body.Parsed? && body.doc.JObject? ==>
        var target, base := Get(body.doc.fields, "filepath"), old(StoragePath());
        && (!Truthy(target) ==> r == Failure(400, Says("No filepath provided")))
        && (Truthy(target) && !(target.JStr? && base.JStr?) ==> r == Failure(500, Error(TypeMismatch)))
        && (target.JStr? && target.s != "" && base.JStr? ==>
             var at := Resolve(dirs, target.s);
             && (!StartsWith(target.s, base.s) ==> r == Failure(403, Says("Invalid path")))
             && (StartsWith(target.s, base.s) && old(ResolvesToFile(target.s)) ==>
                   && files == old(files) - {at.value}
                   && stored == if at.value == ConfigPath then NoFile else old(stored))
             && (StartsWith(target.s, base.s) && ResolvesToDir(target.s) ==>
                   r == Failure(500, Error(IsDirectory(target.s))))
             && (StartsWith(target.s, base.s) && !old(Exists(target.s)) ==>
                   r == Failure(404, Says("Backup file not found"))))
    {
      if body.Malformed? {
        return Failure(500, Error(BadRequestBody));
      }
      if !body.doc.JObject? {
        return Failure(500, Error(TypeMismatch));
      }
      var target := Get(body.doc.fields, "filepath");
      if !Truthy(target) {
        return Failure(400, Says("No filepath provided"));
      }
      var base := StoragePath();
      if !target.JStr? || !base.JStr? {
        return Failure(500, Error(TypeMismatch));
      }
      if !StartsWith(target.s, base.s) {
        return Failure(403, Says("Invalid path"));
      }
      var at := Resolve(dirs, target.s);
      if at.Some? && IsFile(at.value) {
        RemoveFile(at.value);
        r := Success(Says("Backup deleted successfully"));
      } else if at.Some? && at.value in dirs {
        r := Failure(500, Error(IsDirectory(target.s)));
      } else {
        r := Failure(404, Says("Backup file not found"));
      }
    }

    /** `manual_sync`: needs a private key; passes through the backup script's
        stdout on exit 0 and its stderr otherwise. */
    function ManualSync(run: ProcOutcome): (r: Reply)
      reads this
      ensures r.Reply?
      ensures r.status == 400 <==> !Exists(SshKeyPath)
      ensures !Exists(SshKeyPath) ==> r.message == Says("SSH not configured")
      ensures r.success <==> Exists(SshKeyPath) && Succeeded(run)
      ensures r.success ==> r == Reply(200, true, Says("Backup sync completed successfully"), SyncOutput(run.stdout))
      ensures Exists(SshKeyPath) && run.Exited? && run.code != 0 ==>
        r == Reply(500, false, Says("Backup sync failed"), SyncError(run.stderr))
      ensures Exists(SshKeyPath) && run.TimedOut? ==> r == Failure(500, Says("Backup sync timed out"))
      ensures Exists(SshKeyPath) && run.RunError? ==> r == Failure(500, Error(ProcessFailure(run.description)))
    {
      if !Exists(SshKeyPath) then Failure(400, Says("SSH not configured"))
      else match run
        case Exited(code, stdout, stderr) =>
          if code == 0 then Reply(200, true, Says("Backup sync completed successfully"), SyncOutput(stdout))
          else Reply(500, false, Says("Backup sync failed"), SyncError(stderr))
        case TimedOut(_) => Failure(500, Says("Backup sync timed out"))
        case RunError(description) => Failure(500, Error(ProcessFailure(description)))
    }
  }

  /** A file name inside the persistent volume resolves to `/data/name` when
      the root and the persistent volume are directories. */
  lemma DataFileResolves(dirs: set<string>, name: string)
    requires "/" in dirs && DataDir in dirs && IsName(name)
    ensures Resolve(dirs, DataDir + "/" + name) == Some(DataDir + "/" + name)
  {
    ResolveRoot(dirs);
    ResolveJoin(dirs, "/", "data", "/");
    JoinName("/", "data");
    assert "/" + "data" == DataDir;
    ResolveJoin(dirs, DataDir, name, DataDir);
    JoinName(DataDir, name);
  }

  /** The key files and the configuration file resolve to themselves. */
  lemma DataPathResolves(dirs: set<string>, path: string)
    requires "/" in dirs && DataDir in dirs
    requires path == SshKeyPath || path == SshPubKeyPath || path == ConfigPath
    ensures Resolve(dirs, path) == Some(path)
  {
    if path == SshKeyPath {
      DataFileResolves(dirs, "ssh_key");
      assert DataDir + "/" + "ssh_key" == SshKeyPath;
    } else if path == SshPubKeyPath {
      DataFileResolves(dirs, "ssh_key.pub");
      assert DataDir + "/" + "ssh_key.pub" == SshPubKeyPath;
    } else {
      DataFileResolves(dirs, "config.json");
      assert DataDir + "/" + "config.json" == ConfigPath;
    }
  }

  /** Neither key file is the configuration file. */
  lemma KeyPathsAreNotConfig()
    ensures SshKeyPath != ConfigPath && SshPubKeyPath != ConfigPath
  {
    assert SshKeyPath[6] == 's' && SshPubKeyPath[6] == 's' && ConfigPath[6] == 'c';
  }

  /** Deleting the same archive twice: the first request removes the file its
      path resolves to, the second finds nothing. */
  method DeleteTwice(addon: Addon, path: string) returns (first: Reply, second: Reply)
    requires addon.Valid()
    requires addon.ResolvesToFile(path)
    requires addon.StoragePath().JStr? && StartsWith(path, addon.StoragePath().s)
    modifies addon`files, addon`stored
    ensures first == Success(Says("Backup deleted successfully"))
    ensures var at := Resolve(addon.dirs, path).value;
      second == if at == ConfigPath && !StartsWith(path, DefaultStoragePath)
                then Failure(403, Says("Invalid path"))
                else Failure(404, Says("Backup file not found"))
    ensures addon.files == old(addon.files) - {Resolve(addon.dirs, path).value}
    ensures addon.stored == if Resolve(addon.dirs, path).value == ConfigPath then NoFile else old(addon.stored)
  {
    var body := Parsed(JObject(map["filepath" := JStr(path)]));
    first := addon.DeleteBackup(body);
    second := addon.DeleteBackup(body);
  }

  /** The deletion guard is a string prefix test, not containment in the
      storage tree: `/etc/passwd` is refused, but a sibling directory passes. */
  lemma PrefixGuardIsTextual()
    ensures !StartsWith("/etc/passwd", DefaultStoragePath)
    ensures StartsWith("/backup/discourse-x/daily/a.tar.gz", DefaultStoragePath)
  {
  }

  /** For any storage path that resolves to a directory, the guard admits the
      storage path followed by `/..`, and that path resolves to the directory above. */
  lemma GuardAdmitsParent(dirs: set<string>, base: string, at: string)
    requires Resolve(dirs, base) == Some(at) && at in dirs
    ensures StartsWith(base + "/..", base)
    ensures Resolve(dirs, base + "/..") == Some(Parent(at))
  {
    ResolveUp(dirs, base, at);
  }

  /** From the directory `/a/b`, going up twice and then down into `c/d`
      reaches `/c/d`: `..` is folded against the directories on the way, not
      against the text before it. */
  lemma UpTwiceAndOver(dirs: set<string>, a: string, b: string, c: string, d: string)
    requires IsName(a) && IsName(b) && IsName(c) && IsName(d)
    requires "/" in dirs && "/" + a in dirs && "/" + a + "/" + b in dirs && "/" + c in dirs
    ensures Resolve(dirs, "/" + a + "/" + b + "/.." + "/.." + "/" + c + "/" + d) == Some("/" + c + "/" + d)
  {
    var top, base := "/" + a, "/" + a + "/" + b;
    assert top[|top| - 1] == a[|a| - 1] && a[|a| - 1] in a;
    ResolveRoot(dirs);
    ResolveJoin(dirs, "/", a, "/");
    JoinName("/", a);
    ResolveJoin(dirs, top, b, top);
    JoinName(top, b);
    ResolveUp(dirs, base, base);
    ParentOfJoin(top, b);
    ResolveUp(dirs, base + "/..", top);
    ParentOfJoin("/", a);
    var up := base + "/.." + "/..";
    assert up[|up| - 1] == '.';
    ResolveJoin(dirs, up, c, "/");
    JoinName(up, c);
    JoinName("/", c);
    var other := "/" + c;
    assert other[|other| - 1] == c[|c| - 1] && c[|c| - 1] in c;
    ResolveJoin(dirs, up + "/" + c, d, other);
    JoinName(up + "/" + c, d);
    JoinName(other, d);
  }

  /** Without a configuration file the storage path is `/backup/discourse`. */
  lemma DefaultStorage()
    ensures GetOr(Loaded(NoFile), StorageKey, JStr(DefaultStoragePath)) == JStr("/" + "backup" + "/" + "discourse")
  {
    assert "/" + "backup" + "/" + "discourse" == "/backup/discourse";
  }

  /** Whatever the storage path `/a/b`, a request for `/a/b/../../c/d` passes
      the guard by its text and removes the file `/c/d` outside the storage tree. */
  method DeleteThroughParent(addon: Addon, a: string, b: string, c: string, d: string) returns (r: Reply)
    requires addon.Valid()
    requires IsName(a) && IsName(b) && IsName(c) && IsName(d)
    requires addon.StoragePath() == JStr("/" + a + "/" + b)
    requires "/" + a in addon.dirs && "/" + a + "/" + b in addon.dirs && "/" + c in addon.dirs
    requires "/" + c + "/" + d in addon.files
    modifies addon`files, addon`stored
    ensures r == Success(Says("Backup deleted successfully"))
    ensures addon.files == old(addon.files) - {"/" + c + "/" + d}
  {
    UpTwiceAndOver(addon.dirs, a, b, c, d);
    var path := "/" + a + "/" + b + "/.." + "/.." + "/" + c + "/" + d;
    r := addon.DeleteBackup(Parsed(JObject(map["filepath" := JStr(path)])));
  }

  /** With the default storage path and no configuration file, deleting
      `/backup/discourse/../../etc/passwd` removes `/etc/passwd`. */
  method TraversalDeletesOutside() returns (r: Reply, remaining: map<string, FileStat>)
    ensures r == Success(Says("Backup deleted successfully"))
    ensures remaining == map[]
  {
    var dirs := {"/", "/" + "backup", "/" + "backup" + "/" + "discourse", "/" + "etc", DataDir};
    var passwd := "/" + "etc" + "/" + "passwd";
    assert passwd !in dirs by {
      assert |passwd| == 11;
      assert forall p | p in dirs :: |p| != 11;
    }
    assert passwd != ConfigPath by {
      assert |passwd| != |ConfigPath|;
    }
    assert ConfigPath !in dirs by {
      assert ConfigPath[1] == 'd' && ConfigPath[2] == 'a';
      assert forall p | p in dirs :: p == DataDir || |p| != |ConfigPath| || p[1] != 'd';
    }
    var addon := new Addon(map[passwd := FileStat(2048, 0)], dirs, NoFile);
    assert addon.StoragePath() == JStr("/" + "backup" + "/" + "discourse") by {
      DefaultStorage();
    }
    r := DeleteThroughParent(addon, "backup", "discourse", "etc", "passwd");
    remaining := addon.files;
  }

  /** When the storage path is a prefix of `/data/config.json`, a delete request
      for that path removes the configuration file: the request succeeds, the
      next load gives the defaults, and `test_connection` then finds no target. */
  method DeleteConfigFile(addon: Addon, run: ProcOutcome) returns (r: Reply, next: Reply)
    requires addon.Valid() && !addon.stored.NoFile?
    requires addon.StoragePath().JStr? && StartsWith(ConfigPath, addon.StoragePath().s)
    modifies addon`files, addon`stored
    ensures r == Success(Says("Backup deleted successfully"))
    ensures addon.stored == NoFile && addon.files == old(addon.files)
    ensures Loaded(addon.stored) == DefaultConfig
    ensures next == Failure(400, Says("Missing server configuration"))
  {
    DataPathResolves(addon.dirs, ConfigPath);
    r := addon.DeleteBackup(Parsed(JObject(map["filepath" := JStr(ConfigPath)])));
    next := addon.TestConnection(run);
  }

  /** A stored object that sets the storage path to `/data` and names a host
      and a user loads with that storage path and a configured target. */
  lemma StoredTarget(fields: map<string, Json>)
    requires fields == map[StorageKey := JStr(DataDir), "remote_host" := JStr("h"), "remote_user" := JStr("u")]
    ensures GetOr(Loaded(Saved(JObject(fields))), StorageKey, JStr(DefaultStoragePath)) == JStr(DataDir)
    ensures Truthy(Get(Loaded(Saved(JObject(fields))), "remote_host"))
    ensures Truthy(Get(Loaded(Saved(JObject(fields))), "remote_user"))
  {
  }

  /** With the storage path set to `/data` and a target saved, deleting
      `/data/config.json` turns "SSH key not configured" into
      "Missing server configuration". */
  method ConfigDeleteForgetsTarget(run: ProcOutcome) returns (before: Reply, r: Reply, after: Reply)
    ensures before == Failure(400, Says("SSH key not configured"))
    ensures r == Success(Says("Backup deleted successfully"))
    ensures after == Failure(400, Says("Missing server configuration"))
  {
    var target := map[StorageKey := JStr(DataDir), "remote_host" := JStr("h"), "remote_user" := JStr("u")];
    var dirs := {"/", DataDir};
    assert ConfigPath !in dirs by {
      assert |ConfigPath| != |DataDir|;
    }
    var addon := new Addon(map[], dirs, Saved(JObject(target)));
    StoredTarget(target);
    DataPathResolves(dirs, SshKeyPath);
    KeyPathsAreNotConfig();
    assert SshKeyPath !in dirs by {
      assert |SshKeyPath| != |DataDir|;
    }
    before := addon.TestConnection(run);
    r, after := DeleteConfigFile(addon, run);
  }
}
