/** What a restore leaves behind (server/src/rivulets/backup.py:424-462): the engine, every file, and the round trip with
    a backup. */
module RestoredWorkspace {
  import opened Prelude
  import opened Backup
  import opened RestoreSafety

  // ----- a few steps -----

  lemma {:induction false} DoAllInTwo(w: World, xs: seq<Op>, ys: seq<Op>, env: Env)
    ensures DoAll(w, xs + ys, env).1 <==> DoAll(w, xs, env).1 && DoAll(DoAll(w, xs, env).0, ys, env).1
    ensures DoAll(w, xs, env).1 ==> DoAll(w, xs + ys, env) == DoAll(DoAll(w, xs, env).0, ys, env)
  {
    if ys == [] {
      assert xs + ys == xs;
    } else {
      DoAllInTwo(w, xs, ys[..|ys| - 1], env);
      assert (xs + ys)[..|xs + ys| - 1] == xs + ys[..|ys| - 1];
    }
  }

  lemma DoOne(w: World, op: Op, env: Env)
    ensures DoAll(w, [op], env) == Do(w, op, env)
  {
    assert [op][..0] == [];
  }

  lemma DoTwo(w: World, a: Op, b: Op, env: Env)
    ensures DoAll(w, [a, b], env).1 <==> !env.fails(w.tick) && !env.fails(w.tick + 1)
    ensures DoAll(w, [a, b], env).1 ==>
              && DoAll(w, [a, b], env).0.disk == Effect(Effect(w.disk, a, env.torn(w.tick)), b, env.torn(w.tick + 1))
              && DoAll(w, [a, b], env).0.tick == w.tick + 2
  {
    assert [a, b][..1] == [a];
    DoOne(w, a, env);
  }

  lemma DoThree(w: World, a: Op, b: Op, c: Op, env: Env)
    ensures DoAll(w, [a, b, c], env).1 <==> !env.fails(w.tick) && !env.fails(w.tick + 1) && !env.fails(w.tick + 2)
    ensures DoAll(w, [a, b, c], env).1 ==>
              DoAll(w, [a, b, c], env).0.disk ==
              Effect(Effect(Effect(w.disk, a, env.torn(w.tick)), b, env.torn(w.tick + 1)), c, env.torn(w.tick + 2))
  {
    assert [a, b, c][..2] == [a, b];
    DoTwo(w, a, b, env);
  }

  // ----- the engine override -----

  /** The finally block drops the disposed engine exactly when all three of its own unlinks work. */
  lemma FinallyDropsEngine(w: World, env: Env)
    requires w.engine != Dropped
    ensures Finally(w, env).0.engine == Dropped <==>
            !env.fails(w.tick) && !env.fails(w.tick + 1) && !env.fails(w.tick + 2)
  {
    DoThree(w, Unlink(AgentOsFile), Unlink(Wal(AgentOsFile)), Unlink(Shm(AgentOsFile)), env);
    EngineStays(w, WithSidecarsOps(AgentOsFile), env);
  }

  lemma {:induction false} EngineStays(w: World, ops: seq<Op>, env: Env)
    ensures DoAll(w, ops, env).0.engine == w.engine
  {
    if ops != [] {
      EngineStays(w, ops[..|ops| - 1], env);
    }
  }

  lemma SwapInLeavesEngine(w: World, a: Archive, listing: seq<string>, env: Env)
    requires a.db.Some?
    ensures SwapIn(w, a, listing, env).0.engine == w.engine
  {
    ReplaceLeavesEngine(w, a.db.value, DbFile, env);
    var w1 := Replace(w, a.db.value, DbFile, env).0;
    EngineStays(w1, SidecarOps(DbFile), env);
    var w2 := DoAll(w1, SidecarOps(DbFile), env).0;
    EngineStays(w2, WithSidecarsOps(CredentialsFile), env);
    if a.credentials.Some? {
      ReplaceLeavesEngine(w2, a.credentials.value, CredentialsFile, env);
      EngineStays(Replace(w2, a.credentials.value, CredentialsFile, env).0, SidecarOps(CredentialsFile), env);
    }
    var w3 := RestoreCredentials(w2, a, env).0;
    EngineStays(w3, SyncOps(a), env);
    EngineStays(DoAll(w3, SyncOps(a), env).0, ToolOps(a, listing), env);
  }

  lemma ReplaceLeavesEngine(w: World, content: string, dest: Path, env: Env)
    ensures Replace(w, content, dest, env).0.engine == w.engine
  {
    EngineStays(w, [Tear(Staging(dest)), Put(Staging(dest), content), Rename(Staging(dest), dest)], env);
  }

  /** After an accepted archive the engine is dropped, so that the next use reopens, exactly when the
      removal of AgentOS's own files works; which step of the swap failed, if any, does not matter. */
  lemma EngineDroppedExactlyWhen(w: World, name: string, listing: Listing, env: Env)
    requires w.engine == Usable
    requires var a := ArchiveRead(w, name, listing, env); a.Some? && Valid(a.value, env)
    ensures var a := ArchiveRead(w, name, listing, env).value;
            var w1 := CreateBackup(w, listing.safetyName, listing.syncFiles, listing.tools, env).0;
            var t := SwapIn(w1.(engine := Disposed), a, listing.tools, env).0.tick;
            var v := RestoreFromBackup(w, name, listing, env).0;
            && (v.engine == Dropped <==> !env.fails(t) && !env.fails(t + 1) && !env.fails(t + 2))
            && (v.engine != Dropped ==> v.engine == Disposed)
  {
    var a := ArchiveRead(w, name, listing, env).value;
    var w1 := CreateBackup(w, listing.safetyName, listing.syncFiles, listing.tools, env).0;
    var w2 := w1.(engine := Disposed);
    SwapInLeavesEngine(w2, a, listing.tools, env);
    var w3 := SwapIn(w2, a, listing.tools, env).0;
    FinallyDropsEngine(w3, env);
    EngineStays(w3, WithSidecarsOps(AgentOsFile), env);
  }

  /** "Whatever happens, the override is cleared" is too strong: when the disk refuses every step
      after the safety snapshot, the disposed engine stays in use. */
  lemma DisposedEngineCanRemain(w: World, name: string, listing: Listing, env: Env)
    requires w.engine == Usable && !env.fails(w.tick) && !env.fails(w.tick + 1)
    requires forall t :: t >= w.tick + 2 ==> env.fails(t)
    requires var a := ArchiveRead(w, name, listing, env); a.Some? && Valid(a.value, env)
    ensures RestoreFromBackup(w, name, listing, env).0.engine == Disposed
  {
    var a := ArchiveRead(w, name, listing, env).value;
    var w2 := CreateBackup(w, listing.safetyName, listing.syncFiles, listing.tools, env).0.(engine := Disposed);
    SwapInTicks(w2, a, listing.tools, env);
    EngineDroppedExactlyWhen(w, name, listing, env);
  }

  lemma {:induction false} TicksGrow(w: World, ops: seq<Op>, env: Env)
    ensures DoAll(w, ops, env).0.tick >= w.tick
  {
    if ops != [] {
      TicksGrow(w, ops[..|ops| - 1], env);
    }
  }

  lemma SwapInTicks(w: World, a: Archive, listing: seq<string>, env: Env)
    requires a.db.Some? && env.fails(w.tick)
    ensures SwapIn(w, a, listing, env).0.tick >= w.tick
  {
    var ops := [Tear(Staging(DbFile)), Put(Staging(DbFile), a.db.value), Rename(Staging(DbFile), DbFile)];
    assert ops[..1] == [ops[0]] && [ops[0]][..0] == [];
    FailureIsFinal(w, ops, 1, env);
    TicksGrow(w, ops, env);
  }

  // ----- the restored workspace, and the round trip -----

  /** The content under which a name comes out of a list of entries. */
  function Last(entries: seq<Entry>, name: string): Option<string> {
    if entries == [] then None
    else if entries[|entries| - 1].name == name then Some(entries[|entries| - 1].content)
    else Last(entries[..|entries| - 1], name)
  }

  /** What a path holds after a successful restore of a over d. */
  function After(d: Disk, a: Archive, p: Path): Option<string> {
    match p
    case DbFile => a.db
    case CredentialsFile => a.credentials
    case AgentOsFile => None
    case Wal(q) => if q.DbFile? || q.CredentialsFile? || q.AgentOsFile? then None else Get(d, p)
    case Shm(q) => if q.DbFile? || q.CredentialsFile? || q.AgentOsFile? then None else Get(d, p)
    case Staging(q) => if q.DbFile? || (q.CredentialsFile? && a.credentials.Some?) then None else Get(d, p)
    case SyncFile(n) => if a.syncFiles.Some? && Last(a.syncFiles.value, n).Some? then Last(a.syncFiles.value, n) else Get(d, p)
    case ToolFile(n) => if a.tools.Some? then Last(a.tools.value, n) else None
    case UploadedFile(n) => Get(d, p)
  }

  lemma ReplaceDisk(w: World, content: string, dest: Path, env: Env)
    requires Replace(w, content, dest, env).1 && dest != Staging(dest)
    ensures var d := Replace(w, content, dest, env).0.disk;
            forall p :: Get(d, p) == if p == dest then Some(content) else if p == Staging(dest) then None else Get(w.disk, p)
  {
    DoThree(w, Tear(Staging(dest)), Put(Staging(dest), content), Rename(Staging(dest), dest), env);
  }

  lemma SidecarsDisk(w: World, q: Path, env: Env)
    ensures DoAll(w, SidecarOps(q), env).1 ==>
              forall p :: Get(DoAll(w, SidecarOps(q), env).0.disk, p) == if p == Wal(q) || p == Shm(q) then None else Get(w.disk, p)
    ensures DoAll(w, WithSidecarsOps(q), env).1 ==>
              forall p :: Get(DoAll(w, WithSidecarsOps(q), env).0.disk, p) ==
                          if p == q || p == Wal(q) || p == Shm(q) then None else Get(w.disk, p)
  {
    DoTwo(w, Unlink(Wal(q)), Unlink(Shm(q)), env);
    DoThree(w, Unlink(q), Unlink(Wal(q)), Unlink(Shm(q)), env);
  }

  lemma CredentialsDisk(w: World, a: Archive, env: Env)
    requires RestoreCredentials(w, a, env).1
    ensures var d := RestoreCredentials(w, a, env).0.disk;
            forall p :: Get(d, p) ==
                        if p == CredentialsFile then a.credentials
                        else if p == Wal(CredentialsFile) || p == Shm(CredentialsFile) then None
                        else if p == Staging(CredentialsFile) && a.credentials.Some? then None
                        else Get(w.disk, p)
  {
    SidecarsDisk(w, CredentialsFile, env);
    if a.credentials.Some? {
      ReplaceDisk(w, a.credentials.value, CredentialsFile, env);
      SidecarsDisk(Replace(w, a.credentials.value, CredentialsFile, env).0, CredentialsFile, env);
    }
  }

  lemma {:induction false} CopySyncDisk(w: World, entries: seq<Entry>, env: Env)
    requires DoAll(w, CopySyncOps(entries), env).1
    ensures forall p :: Get(DoAll(w, CopySyncOps(entries), env).0.disk, p) ==
                        if p.SyncFile? && Last(entries, p.name).Some? then Last(entries, p.name) else Get(w.disk, p)
  {
    if entries != [] {
      var init, e := entries[..|entries| - 1], entries[|entries| - 1];
      var put := [Tear(SyncFile(e.name)), Put(SyncFile(e.name), e.content)];
      DoAllInTwo(w, CopySyncOps(init), put, env);
      CopySyncDisk(w, init, env);
      DoTwo(DoAll(w, CopySyncOps(init), env).0, put[0], put[1], env);
    }
  }

  lemma {:induction false} CopyToolsDisk(w: World, entries: seq<Entry>, env: Env)
    requires DoAll(w, CopyToolOps(entries), env).1
    ensures forall p :: Get(DoAll(w, CopyToolOps(entries), env).0.disk, p) ==
                        if p.ToolFile? && Last(entries, p.name).Some? then Last(entries, p.name) else Get(w.disk, p)
  {
    if entries != [] {
      var init, e := entries[..|entries| - 1], entries[|entries| - 1];
      var put := [Tear(ToolFile(e.name)), Put(ToolFile(e.name), e.content)];
      DoAllInTwo(w, CopyToolOps(init), put, env);
      CopyToolsDisk(w, init, env);
      DoTwo(DoAll(w, CopyToolOps(init), env).0, put[0], put[1], env);
    }
  }

  lemma {:induction false} ClearToolsDisk(w: World, listing: seq<string>, env: Env)
    requires DoAll(w, ClearToolOps(listing), env).1
    ensures forall p :: Get(DoAll(w, ClearToolOps(listing), env).0.disk, p) ==
                        if p.ToolFile? && p.name in listing then None else Get(w.disk, p)
  {
    if listing != [] {
      var init, n := listing[..|listing| - 1], listing[|listing| - 1];
      assert forall m :: m in listing <==> m in init || m == n;
      assert (ClearToolOps(init) + [Unlink(ToolFile(n))])[..|ClearToolOps(init)|] == ClearToolOps(init);
      ClearToolsDisk(w, init, env);
    }
  }

  lemma SyncDisk(w: World, a: Archive, env: Env)
    requires DoAll(w, SyncOps(a), env).1
    ensures forall p :: Get(DoAll(w, SyncOps(a), env).0.disk, p) ==
                        if p.SyncFile? && a.syncFiles.Some? && Last(a.syncFiles.value, p.name).Some?
                        then Last(a.syncFiles.value, p.name) else Get(w.disk, p)
  {
    if a.syncFiles.Some? {
      DoAllInTwo(w, [MakeSyncDir], CopySyncOps(a.syncFiles.value), env);
      assert [MakeSyncDir][..0] == [];
      CopySyncDisk(DoAll(w, [MakeSyncDir], env).0, a.syncFiles.value, env);
    }
  }

  lemma ToolsDisk(w: World, a: Archive, listing: seq<string>, env: Env)
    requires DoAll(w, ToolOps(a, listing), env).1 && ListsTools(w.disk, listing)
    ensures forall p :: Get(DoAll(w, ToolOps(a, listing), env).0.disk, p) ==
                        if p.ToolFile? then if a.tools.Some? then Last(a.tools.value, p.name) else None
                        else Get(w.disk, p)
  {
    var copies := if a.tools.Some? then CopyToolOps(a.tools.value) else [];
    DoAllInTwo(w, [MakeToolsDir] + ClearToolOps(listing), copies, env);
    DoAllInTwo(w, [MakeToolsDir], ClearToolOps(listing), env);
    assert [MakeToolsDir][..0] == [];
    var w1 := DoAll(w, [MakeToolsDir], env).0;
    ClearToolsDisk(w1, listing, env);
    var w2 := DoAll(w1, ClearToolOps(listing), env).0;
    if a.tools.Some? {
      CopyToolsDisk(w2, a.tools.value, env);
    }
  }

  lemma SameToolFiles(d: Disk, e: Disk, listing: seq<string>)
    requires ListsTools(d, listing) && forall n :: Get(e, ToolFile(n)) == Get(d, ToolFile(n))
    ensures ListsTools(e, listing)
  {
    forall n ensures n in listing <==> ToolFile(n) in e.files {
      assert Get(e, ToolFile(n)) == Get(d, ToolFile(n));
    }
  }

  /** After the database and the credentials are in place. */
  lemma DatabasesDisk(w: World, a: Archive, env: Env)
    requires a.db.Some? && Replace(w, a.db.value, DbFile, env).1
    requires var w1 := Replace(w, a.db.value, DbFile, env).0;
             DoAll(w1, SidecarOps(DbFile), env).1 && RestoreCredentials(DoAll(w1, SidecarOps(DbFile), env).0, a, env).1
    ensures var w1 := Replace(w, a.db.value, DbFile, env).0;
            var w3 := RestoreCredentials(DoAll(w1, SidecarOps(DbFile), env).0, a, env).0;
            forall p :: Get(w3.disk, p) ==
                        if p.SyncFile? || p.ToolFile? || p == AgentOsFile || p == Wal(AgentOsFile) || p == Shm(AgentOsFile)
                        then Get(w.disk, p) else After(w.disk, a, p)
  {
    ReplaceDisk(w, a.db.value, DbFile, env);
    var w1 := Replace(w, a.db.value, DbFile, env).0;
    SidecarsDisk(w1, DbFile, env);
    CredentialsDisk(DoAll(w1, SidecarOps(DbFile), env).0, a, env);
  }

  /** The sync files and the tool sources, which follow. */
  lemma FilesDisk(w: World, a: Archive, listing: seq<string>, env: Env)
    requires ListsTools(w.disk, listing) && DoAll(w, SyncOps(a), env).1 && DoAll(DoAll(w, SyncOps(a), env).0, ToolOps(a, listing), env).1
    ensures var v := DoAll(DoAll(w, SyncOps(a), env).0, ToolOps(a, listing), env).0;
            forall p :: Get(v.disk, p) == if p.SyncFile? || p.ToolFile? then After(w.disk, a, p) else Get(w.disk, p)
  {
    SyncDisk(w, a, env);
    var w4 := DoAll(w, SyncOps(a), env).0;
    SameToolFiles(w.disk, w4.disk, listing);
    ToolsDisk(w4, a, listing, env);
  }

  lemma SwapInDisk(w: World, a: Archive, listing: seq<string>, env: Env)
    requires a.db.Some? && SwapIn(w, a, listing, env).1 && ListsTools(w.disk, listing)
    ensures forall p :: Get(SwapIn(w, a, listing, env).0.disk, p) ==
                        if p == AgentOsFile || p == Wal(AgentOsFile) || p == Shm(AgentOsFile)
                        then Get(w.disk, p) else After(w.disk, a, p)
  {
    DatabasesDisk(w, a, env);
    var w1 := Replace(w, a.db.value, DbFile, env).0;
    var w3 := RestoreCredentials(DoAll(w1, SidecarOps(DbFile), env).0, a, env).0;
    SameToolFiles(w.disk, w3.disk, listing);
    FilesDisk(w3, a, listing, env);
  }

  /** A restore that reports success leaves every path as the archive says. */
  lemma RestoredDisk(w: World, name: string, listing: Listing, env: Env)
    requires RestoreFromBackup(w, name, listing, env).1.Restored? && ListsTools(w.disk, listing.tools)
    ensures var a := ArchiveRead(w, name, listing, env);
            a.Some? && forall p :: Get(RestoreFromBackup(w, name, listing, env).0.disk, p) == After(w.disk, a.value, p)
  {
    CreateBackupKeepsDisk(w, listing.safetyName, listing.syncFiles, listing.tools, env);
    var w0 := CreateBackup(w, listing.safetyName, listing.syncFiles, listing.tools, env).0.(engine := Disposed);
    var a := ArchiveRead(w, name, listing, env).value;
    SwapInDisk(w0, a, listing.tools, env);
    SidecarsDisk(SwapIn(w0, a, listing.tools, env).0, AgentOsFile, env);
  }

  lemma {:induction false} EntriesRoundTrip(d: Disk, names: seq<string>, path: string -> Path, n: string)
    ensures Last(EntriesOf(d, names, path), n) == if n in names then Get(d, path(n)) else None
  {
    if names != [] {
      var init, last := names[..|names| - 1], names[|names| - 1];
      EntriesRoundTrip(d, init, path, n);
      assert n in names <==> n in init || n == last;
      var rest := EntriesOf(d, init, path);
      assert path(last) in d.files ==> (rest + [Entry(last, d.files[path(last)])])[..|rest|] == rest;
    }
  }

  /** Listings of both directories, complete, and no file in a directory that does not exist. */
  ghost predicate FullListing(d: Disk, syncListing: seq<string>, toolListing: seq<string>) {
    && (forall n :: n in syncListing <==> SyncFile(n) in d.files)
    && ListsTools(d, toolListing)
    && (!d.syncDir ==> forall n :: SyncFile(n) !in d.files)
    && (!d.toolsDir ==> forall n :: ToolFile(n) !in d.files)
  }

  /** The database, the credentials (or their absence) and the tool sources are those of the backup, the sync directory
      is the live one overlaid by the archived files, AgentOS's own database is gone, and uploaded files are the live ones. */
  ghost predicate BackedUp(d: Disk, live: Disk, after: Disk) {
    && Get(after, DbFile) == Get(d, DbFile)
    && Get(after, CredentialsFile) == Get(d, CredentialsFile)
    && (forall n :: Get(after, ToolFile(n)) == Get(d, ToolFile(n)))
    && (forall n :: Get(after, SyncFile(n)) == if SyncFile(n) in d.files then Get(d, SyncFile(n)) else Get(live, SyncFile(n)))
    && Get(after, AgentOsFile) == None
    && (forall n :: Get(after, UploadedFile(n)) == Get(live, UploadedFile(n)))
  }

  /** A restore from an archive of d that reports success brings d back. */
  lemma BackupRestoreRoundTrip(d: Disk, syncListing: seq<string>, toolListing: seq<string>,
                               w: World, name: string, listing: Listing, env: Env)
    requires DbFile in d.files && FullListing(d, syncListing, toolListing)
    requires name in w.backups && w.backups[name] == ArchiveOf(d, syncListing, toolListing)
    requires name != listing.safetyName && ListsTools(w.disk, listing.tools)
    requires RestoreFromBackup(w, name, listing, env).1.Restored?
    ensures BackedUp(d, w.disk, RestoreFromBackup(w, name, listing, env).0.disk)
  {
    RestoredDisk(w, name, listing, env);
    var a := ArchiveOf(d, syncListing, toolListing);
    assert ArchiveRead(w, name, listing, env) == Some(a);
    forall n {
      ArchivedFiles(d, syncListing, toolListing, w.disk, n);
    }
  }

  /** The archive that a backup reported as written leaves under its name. */
  lemma WrittenIsArchive(w: World, name: string, syncListing: seq<string>, toolListing: seq<string>, env: Env)
    requires CreateBackup(w, name, syncListing, toolListing, env).1.Written?
    ensures var v := CreateBackup(w, name, syncListing, toolListing, env).0;
            && v.disk == w.disk && name in v.backups && v.backups[name] == ArchiveOf(w.disk, syncListing, toolListing)
            && Valid(v.backups[name], env)
            && forall other :: other != name ==> (other in v.backups <==> other in w.backups)
                                                  && (other in w.backups ==> v.backups[other] == w.backups[other])
  {
  }

  /** The whole cycle: a backup that reports Written, then anything that leaves this backup in place, however the live
      files change, then a restore under that name that reports success. */
  lemma BackupThenRestore(u: World, syncListing: seq<string>, toolListing: seq<string>,
                          w: World, name: string, listing: Listing, env: Env)
    requires DbFile in u.disk.files && FullListing(u.disk, syncListing, toolListing)
    requires CreateBackup(u, name, syncListing, toolListing, env).1.Written?
    requires var v := CreateBackup(u, name, syncListing, toolListing, env).0;
             name in w.backups && name in v.backups && w.backups[name] == v.backups[name]
    requires name != listing.safetyName && ListsTools(w.disk, listing.tools)
    ensures RestoreFromBackup(w, name, listing, env).1 != InvalidArchive
    ensures RestoreFromBackup(w, name, listing, env).1.Restored? ==>
              BackedUp(u.disk, w.disk, RestoreFromBackup(w, name, listing, env).0.disk)
  {
    WrittenIsArchive(u, name, syncListing, toolListing, env);
    if RestoreFromBackup(w, name, listing, env).1.Restored? {
      BackupRestoreRoundTrip(u.disk, syncListing, toolListing, w, name, listing, env);
    }
  }

  lemma ArchivedFiles(d: Disk, syncListing: seq<string>, toolListing: seq<string>, live: Disk, n: string)
    requires FullListing(d, syncListing, toolListing)
    ensures After(live, ArchiveOf(d, syncListing, toolListing), ToolFile(n)) == Get(d, ToolFile(n))
    ensures After(live, ArchiveOf(d, syncListing, toolListing), SyncFile(n)) ==
            if SyncFile(n) in d.files then Get(d, SyncFile(n)) else Get(live, SyncFile(n))
  {
    EntriesRoundTrip(d, toolListing, ToolPath(), n);
    EntriesRoundTrip(d, syncListing, SyncPath(), n);
  }

  /** Why the names must differ: a restore whose safety snapshot takes the name of the archive it
      is to restore puts the live database back. */
  lemma SafetySnapshotShadowsArchive(w: World, name: string, listing: Listing, env: Env)
    requires name == listing.safetyName && DbFile in w.disk.files && ListsTools(w.disk, listing.tools)
    requires RestoreFromBackup(w, name, listing, env).1.Restored?
    ensures Get(RestoreFromBackup(w, name, listing, env).0.disk, DbFile) == Get(w.disk, DbFile)
  {
    RestoredDisk(w, name, listing, env);
  }

  // ----- when a backup and a restore succeed -----

  /** Nothing fails from one step to another. */
  ghost predicate AllWork(env: Env, from: nat, to: nat) {
    forall t :: from <= t < to ==> !env.fails(t)
  }

  lemma {:induction false} WorksExactlyWhen(w: World, ops: seq<Op>, env: Env)
    ensures DoAll(w, ops, env).0.tick >= w.tick
    ensures DoAll(w, ops, env).1 <==> AllWork(env, w.tick, DoAll(w, ops, env).0.tick)
  {
    if ops != [] {
      WorksExactlyWhen(w, ops[..|ops| - 1], env);
    }
  }

  lemma ReplaceWorksExactlyWhen(w: World, content: string, dest: Path, env: Env)
    ensures var (v, ok) := Replace(w, content, dest, env); v.tick >= w.tick && (ok <==> AllWork(env, w.tick, v.tick))
  {
    WorksExactlyWhen(w, [Tear(Staging(dest)), Put(Staging(dest), content), Rename(Staging(dest), dest)], env);
  }

  lemma CredentialsWorkExactlyWhen(w: World, a: Archive, env: Env)
    ensures var (v, ok) := RestoreCredentials(w, a, env); v.tick >= w.tick && (ok <==> AllWork(env, w.tick, v.tick))
  {
    WorksExactlyWhen(w, WithSidecarsOps(CredentialsFile), env);
    if a.credentials.Some? {
      ReplaceWorksExactlyWhen(w, a.credentials.value, CredentialsFile, env);
      WorksExactlyWhen(Replace(w, a.credentials.value, CredentialsFile, env).0, SidecarOps(CredentialsFile), env);
    }
  }

  lemma SwapInWorksExactlyWhen(w: World, a: Archive, listing: seq<string>, env: Env)
    requires a.db.Some?
    ensures var (v, ok) := SwapIn(w, a, listing, env); v.tick >= w.tick && (ok <==> AllWork(env, w.tick, v.tick))
  {
    ReplaceWorksExactlyWhen(w, a.db.value, DbFile, env);
    var w1 := Replace(w, a.db.value, DbFile, env).0;
    WorksExactlyWhen(w1, SidecarOps(DbFile), env);
    var w2 := DoAll(w1, SidecarOps(DbFile), env).0;
    CredentialsWorkExactlyWhen(w2, a, env);
    var w3 := RestoreCredentials(w2, a, env).0;
    WorksExactlyWhen(w3, SyncOps(a), env);
    WorksExactlyWhen(DoAll(w3, SyncOps(a), env).0, ToolOps(a, listing), env);
  }

  /** A restore reports success exactly when there is an archive of that name whose databases pass their check, and none
      of the steps that were run failed, those of the safety snapshot included. */
  lemma RestoredExactlyWhen(w: World, name: string, listing: Listing, env: Env)
    ensures var (v, outcome) := RestoreFromBackup(w, name, listing, env);
            var a := ArchiveRead(w, name, listing, env);
            outcome.Restored? <==>
              && a.Some? && a.value.db.Some? && env.intact(a.value.db.value)
              && (a.value.credentials.Some? ==> env.intact(a.value.credentials.value))
              && AllWork(env, w.tick, v.tick)
  {
    var (w1, saved) := CreateBackup(w, listing.safetyName, listing.syncFiles, listing.tools, env);
    var a := ArchiveRead(w, name, listing, env);
    if a.Some? && Valid(a.value, env) {
      var w2 := w1.(engine := Disposed);
      SwapInWorksExactlyWhen(w2, a.value, listing.tools, env);
      var w3 := SwapIn(w2, a.value, listing.tools, env).0;
      WorksExactlyWhen(w3, WithSidecarsOps(AgentOsFile), env);
      assert w1.tick == w.tick + 2 && AllWork(env, w.tick, w1.tick);
    }
  }

  /** A backup reports success exactly when neither of its steps fails and what it copied passes its check. */
  lemma WrittenExactlyWhen(w: World, name: string, syncListing: seq<string>, toolListing: seq<string>, env: Env)
    ensures var (v, result) := CreateBackup(w, name, syncListing, toolListing, env);
            && (result.OsError? <==> env.fails(w.tick) || env.fails(w.tick + 1))
            && (result.Written? <==>
                  && !env.fails(w.tick) && !env.fails(w.tick + 1)
                  && env.intact(if DbFile in w.disk.files then w.disk.files[DbFile] else "")
                  && (CredentialsFile in w.disk.files ==> env.intact(w.disk.files[CredentialsFile])))
            && v.disk == w.disk && v.engine == w.engine
  {
  }

  lemma SwapInKeepsBackups(w: World, a: Archive, listing: seq<string>, env: Env)
    requires a.db.Some?
    ensures SwapIn(w, a, listing, env).0.backups == w.backups
  {
    var replace := [Tear(Staging(DbFile)), Put(Staging(DbFile), a.db.value), Rename(Staging(DbFile), DbFile)];
    BackupsStay(w, replace, env);
    var w1 := Replace(w, a.db.value, DbFile, env).0;
    BackupsStay(w1, SidecarOps(DbFile), env);
    var w2 := DoAll(w1, SidecarOps(DbFile), env).0;
    CredentialsKeepBackups(w2, a, env);
    var w3 := RestoreCredentials(w2, a, env).0;
    BackupsStay(w3, SyncOps(a), env);
    BackupsStay(DoAll(w3, SyncOps(a), env).0, ToolOps(a, listing), env);
  }

  lemma CredentialsKeepBackups(w: World, a: Archive, env: Env)
    ensures RestoreCredentials(w, a, env).0.backups == w.backups
  {
    BackupsStay(w, WithSidecarsOps(CredentialsFile), env);
    if a.credentials.Some? {
      var staging := Staging(CredentialsFile);
      BackupsStay(w, [Tear(staging), Put(staging, a.credentials.value), Rename(staging, CredentialsFile)], env);
      BackupsStay(Replace(w, a.credentials.value, CredentialsFile, env).0, SidecarOps(CredentialsFile), env);
    }
  }

  lemma {:induction false} BackupsStay(w: World, ops: seq<Op>, env: Env)
    ensures DoAll(w, ops, env).0.backups == w.backups
  {
    if ops != [] {
      BackupsStay(w, ops[..|ops| - 1], env);
    }
  }

  /** A restore has saved the live disk under the name of its safety snapshot, and touched no other backup. */
  lemma RestoreSavesLiveDisk(w: World, name: string, listing: Listing, env: Env)
    requires RestoreFromBackup(w, name, listing, env).1.Restored?
    ensures RestoreFromBackup(w, name, listing, env).0.backups ==
            w.backups[listing.safetyName := ArchiveOf(w.disk, listing.syncFiles, listing.tools)]
  {
    var w1 := CreateBackup(w, listing.safetyName, listing.syncFiles, listing.tools, env).0;
    var w2 := w1.(engine := Disposed);
    var a := ArchiveRead(w, name, listing, env).value;
    SwapInKeepsBackups(w2, a, listing.tools, env);
    BackupsStay(SwapIn(w2, a, listing.tools, env).0, WithSidecarsOps(AgentOsFile), env);
  }

  /** A restore can be undone: restoring its safety snapshot brings the former disk back. */
  lemma RestoreCanBeUndone(w: World, name: string, listing: Listing, listing2: Listing, env: Env, env2: Env)
    requires DbFile in w.disk.files && FullListing(w.disk, listing.syncFiles, listing.tools)
    requires RestoreFromBackup(w, name, listing, env).1.Restored?
    requires var v := RestoreFromBackup(w, name, listing, env).0;
             && listing2.safetyName != listing.safetyName && ListsTools(v.disk, listing2.tools)
             && RestoreFromBackup(v, listing.safetyName, listing2, env2).1.Restored?
    ensures var v := RestoreFromBackup(w, name, listing, env).0;
            BackedUp(w.disk, v.disk, RestoreFromBackup(v, listing.safetyName, listing2, env2).0.disk)
  {
    var v := RestoreFromBackup(w, name, listing, env).0;
    RestoreSavesLiveDisk(w, name, listing, env);
    BackupRestoreRoundTrip(w.disk, listing.syncFiles, listing.tools, v, listing.safetyName, listing2, env2);
  }
}
