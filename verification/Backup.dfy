/** Backup and restore of a workspace (server/src/rivulets/backup.py). A restore is a run of
    file-system steps, any of which may fail; the log keeps the disk after every step, so a
    statement about the whole log is a statement about every point at which the process may
    stop. A SQLite file is identified with the database it holds. */
module Backup {
  import opened Prelude

  datatype Path =
    | DbFile
    | CredentialsFile
    | AgentOsFile
    | Wal(of: Path)
    | Shm(of: Path)
    | Staging(of: Path)
    | SyncFile(name: string)
    | ToolFile(name: string)
    | UploadedFile(name: string)

  datatype Disk = Disk(files: map<Path, string>, syncDir: bool, toolsDir: bool)

  datatype Entry = Entry(name: string, content: string)

  /** What a tar archive holds; a directory is present or absent as a whole. */
  datatype Archive = Archive(db: Option<string>, credentials: Option<string>,
                             syncFiles: Option<seq<Entry>>, tools: Option<seq<Entry>>)

  /** The process-wide engine: usable, disposed and still referenced, or dropped so that the next use reopens. */
  datatype Engine = Usable | Disposed | Dropped

  datatype World = World(disk: Disk, backups: map<string, Archive>, engine: Engine, tick: nat, log: seq<Disk>)

  /** What the environment decides: which steps fail, what a half-written file holds, and
      which databases pass the integrity check. */
  datatype Env = Env(fails: nat -> bool, torn: nat -> string, intact: string -> bool)

  function Get(d: Disk, p: Path): Option<string> {
    if p in d.files then Some(d.files[p]) else None
  }

  // ----- single steps -----

  datatype Op =
    | Tear(path: Path)
    | Put(path: Path, content: string)
    | Rename(source: Path, path: Path)
    | Unlink(path: Path)
    | MakeSyncDir
    | MakeToolsDir

  function Effect(d: Disk, op: Op, torn: string): Disk {
    match op
    case Tear(p) => d.(files := d.files[p := torn])
    case Put(p, content) => d.(files := d.files[p := content])
    case Rename(source, p) => if source in d.files then d.(files := (d.files - {source})[p := d.files[source]]) else d
    case Unlink(p) => d.(files := d.files - {p})
    case MakeSyncDir => d.(syncDir := true)
    case MakeToolsDir => d.(toolsDir := true)
  }

  /** One step: it fails and changes nothing, or happens; the log notes the disk either way. */
  function Do(w: World, op: Op, env: Env): (World, bool) {
    if env.fails(w.tick) then (w.(tick := w.tick + 1, log := w.log + [w.disk]), false)
    else
      var d := Effect(w.disk, op, env.torn(w.tick));
      (w.(disk := d, tick := w.tick + 1, log := w.log + [d]), true)
  }

  /** The steps in order, up to the first that fails. */
  function DoAll(w: World, ops: seq<Op>, env: Env): (World, bool) {
    if ops == [] then (w, true)
    else
      var (v, ok) := DoAll(w, ops[..|ops| - 1], env);
      if ok then Do(v, ops[|ops| - 1], env) else (v, false)
  }

  /** _atomic_replace: a file copy next to dest, then a rename over it; the copy is removed when either fails. */
  function Replace(w: World, content: string, dest: Path, env: Env): (World, bool) {
    var staging := Staging(dest);
    var (v, ok) := DoAll(w, [Tear(staging), Put(staging, content), Rename(staging, dest)], env);
    if ok then (v, true) else (Do(v, Unlink(staging), env).0, false)
  }

  function SidecarOps(p: Path): seq<Op> {
    [Unlink(Wal(p)), Unlink(Shm(p))]
  }

  function WithSidecarsOps(p: Path): seq<Op> {
    [Unlink(p), Unlink(Wal(p)), Unlink(Shm(p))]
  }

  function CopySyncOps(entries: seq<Entry>): seq<Op> {
    if entries == [] then []
    else
      var e := entries[|entries| - 1];
      CopySyncOps(entries[..|entries| - 1]) + [Tear(SyncFile(e.name)), Put(SyncFile(e.name), e.content)]
  }

  function CopyToolOps(entries: seq<Entry>): seq<Op> {
    if entries == [] then []
    else
      var e := entries[|entries| - 1];
      CopyToolOps(entries[..|entries| - 1]) + [Tear(ToolFile(e.name)), Put(ToolFile(e.name), e.content)]
  }

  function ClearToolOps(listing: seq<string>): seq<Op> {
    if listing == [] then []
    else ClearToolOps(listing[..|listing| - 1]) + [Unlink(ToolFile(listing[|listing| - 1]))]
  }

  function SyncOps(a: Archive): seq<Op> {
    if a.syncFiles.Some? then [MakeSyncDir] + CopySyncOps(a.syncFiles.value) else []
  }

  function ToolOps(a: Archive, listing: seq<string>): seq<Op> {
    [MakeToolsDir] + ClearToolOps(listing) + if a.tools.Some? then CopyToolOps(a.tools.value) else []
  }

  function RestoreCredentials(w: World, a: Archive, env: Env): (World, bool) {
    if a.credentials.None? then DoAll(w, WithSidecarsOps(CredentialsFile), env)
    else
      var (v, ok) := Replace(w, a.credentials.value, CredentialsFile, env);
      if ok then DoAll(v, SidecarOps(CredentialsFile), env) else (v, false)
  }

  /** The try block of restore_from_backup. */
  function SwapIn(w: World, a: Archive, listing: seq<string>, env: Env): (World, bool)
    requires a.db.Some?
  {
    var (w1, ok1) := Replace(w, a.db.value, DbFile, env);
    if !ok1 then (w1, false) else
    var (w2, ok2) := DoAll(w1, SidecarOps(DbFile), env);
    if !ok2 then (w2, false) else
    var (w3, ok3) := RestoreCredentials(w2, a, env);
    if !ok3 then (w3, false) else
    var (w4, ok4) := DoAll(w3, SyncOps(a), env);
    if !ok4 then (w4, false) else
    DoAll(w4, ToolOps(a, listing), env)
  }

  /** The finally block: AgentOS's own database goes, then the disposed engine is dropped. */
  function Finally(w: World, env: Env): (World, bool) {
    var (v, ok) := DoAll(w, WithSidecarsOps(AgentOsFile), env);
    if ok then (v.(engine := Dropped), true) else (v, false)
  }

  datatype Outcome = Restored | InvalidArchive | Failed

  predicate Valid(a: Archive, env: Env) {
    && a.db.Some? && env.intact(a.db.value)
    && (a.credentials.Some? ==> env.intact(a.credentials.value))
  }

  /** A listing of the tool files in some order. */
  ghost predicate ListsTools(d: Disk, listing: seq<string>) {
    forall n :: n in listing <==> ToolFile(n) in d.files
  }

  // ----- backup -----

  function EntriesOf(d: Disk, names: seq<string>, path: string -> Path): seq<Entry> {
    if names == [] then []
    else
      var rest := EntriesOf(d, names[..|names| - 1], path);
      var n := names[|names| - 1];
      if path(n) in d.files then rest + [Entry(n, d.files[path(n)])] else rest
  }

  function SyncPath(): string -> Path {
    (n: string) => SyncFile(n)
  }

  function ToolPath(): string -> Path {
    (n: string) => ToolFile(n)
  }

  /** _build_backup_archive, with the order in which the two directories are listed. */
  function ArchiveOf(d: Disk, syncListing: seq<string>, toolListing: seq<string>): Archive {
    Archive(Some(if DbFile in d.files then d.files[DbFile] else ""),
            Get(d, CredentialsFile),
            if d.syncDir then Some(EntriesOf(d, syncListing, SyncPath())) else None,
            if d.toolsDir then Some(EntriesOf(d, toolListing, ToolPath())) else None)
  }

  const UNREADABLE := Archive(None, None, None, None)

  datatype BackupResult = Written | IntegrityError | OsError

  /** create_backup under a name: what had that name goes first, and a snapshot that fails
      its own check is left in place. */
  function CreateBackup(w: World, name: string, syncListing: seq<string>, toolListing: seq<string>, env: Env)
    : (World, BackupResult)
  {
    if env.fails(w.tick) then (w.(tick := w.tick + 1, log := w.log + [w.disk]), OsError)
    else if env.fails(w.tick + 1) then
      (w.(tick := w.tick + 2, log := w.log + [w.disk], backups := w.backups[name := UNREADABLE]), OsError)
    else
      var a := ArchiveOf(w.disk, syncListing, toolListing);
      (w.(tick := w.tick + 2, log := w.log + [w.disk], backups := w.backups[name := a]),
       if Valid(a, env) then Written else IntegrityError)
  }

  // ----- restore -----

  /** The orders in which the directories are listed, and the name of the safety snapshot. */
  datatype Listing = Listing(syncFiles: seq<string>, tools: seq<string>, safetyName: string)

  /** The part of a restore after the archive has been read. */
  function RestoreArchive(w: World, a: Archive, listing: seq<string>, env: Env): (World, Outcome) {
    if !Valid(a, env) then (w, InvalidArchive)
    else
      var (v, ok) := SwapIn(w.(engine := Disposed), a, listing, env);
      var (u, cleaned) := Finally(v, env);
      (u, if ok && cleaned then Restored else Failed)
  }

  function RestoreFromBackup(w: World, name: string, listing: Listing, env: Env): (World, Outcome) {
    var (v, saved) := CreateBackup(w, listing.safetyName, listing.syncFiles, listing.tools, env);
    if saved.OsError? || name !in v.backups then (v, Failed)
    else RestoreArchive(v, v.backups[name], listing.tools, env)
  }

  // ----- the same, as it runs -----

  class Workspace {
    var world: World
    const env: Env

    constructor (w: World, e: Env)
      ensures world == w && env == e
    {
      world, env := w, e;
    }

    method Perform(op: Op) returns (ok: bool)
      modifies this
      ensures (world, ok) == Do(old(world), op, env)
    {
      if env.fails(world.tick) {
        world := world.(tick := world.tick + 1, log := world.log + [world.disk]);
        return false;
      }
      var d := Effect(world.disk, op, env.torn(world.tick));
      world := world.(disk := d, tick := world.tick + 1, log := world.log + [d]);
      return true;
    }

    method PerformAll(ops: seq<Op>) returns (ok: bool)
      modifies this
      ensures (world, ok) == DoAll(old(world), ops, env)
    {
      for i := 0 to |ops|
        invariant (world, true) == DoAll(old(world), ops[..i], env)
      {
        assert ops[..i + 1][..i] == ops[..i];
        ok := Perform(ops[i]);
        if !ok {
          FailureIsFinal(old(world), ops, i + 1, env);
          return false;
        }
      }
      assert ops[..|ops|] == ops;
      return true;
    }

    /** The files of one directory, in the order of its listing. */
    method Collect(names: seq<string>, path: string -> Path) returns (entries: seq<Entry>)
      ensures entries == EntriesOf(world.disk, names, path)
    {
      entries := [];
      for i := 0 to |names|
        invariant entries == EntriesOf(world.disk, names[..i], path)
      {
        assert names[..i + 1][..i] == names[..i];
        if path(names[i]) in world.disk.files {
          entries := entries + [Entry(names[i], world.disk.files[path(names[i])])];
        }
      }
      assert names[..|names|] == names;
    }

    method BuildArchive(syncListing: seq<string>, toolListing: seq<string>) returns (a: Archive)
      ensures a == ArchiveOf(world.disk, syncListing, toolListing)
    {
      var syncEntries: Option<seq<Entry>>, toolEntries: Option<seq<Entry>> := None, None;
      if world.disk.syncDir {
        var entries := Collect(syncListing, SyncPath());
        syncEntries := Some(entries);
      }
      if world.disk.toolsDir {
        var entries := Collect(toolListing, ToolPath());
        toolEntries := Some(entries);
      }
      a := Archive(Some(if DbFile in world.disk.files then world.disk.files[DbFile] else ""),
                   Get(world.disk, CredentialsFile), syncEntries, toolEntries);
    }

    method Snapshot(name: string, syncListing: seq<string>, toolListing: seq<string>) returns (result: BackupResult)
      modifies this
      ensures (world, result) == CreateBackup(old(world), name, syncListing, toolListing, env)
    {
      var first := world.tick;
      world := world.(tick := first + 1, log := world.log + [world.disk]);
      if env.fails(first) {
        return OsError;
      }
      world := world.(tick := first + 2);
      if env.fails(first + 1) {
        world := world.(backups := world.backups[name := UNREADABLE]);
        return OsError;
      }
      var a := BuildArchive(syncListing, toolListing);
      world := world.(backups := world.backups[name := a]);
      return if Valid(a, env) then Written else IntegrityError;
    }

    method AtomicReplace(content: string, dest: Path) returns (ok: bool)
      modifies this
      ensures (world, ok) == Replace(old(world), content, dest, env)
    {
      var staging := Staging(dest);
      ok := PerformAll([Tear(staging), Put(staging, content), Rename(staging, dest)]);
      if !ok {
        var _ := Perform(Unlink(staging));
      }
    }

    method SwapInArchive(a: Archive, listing: seq<string>) returns (ok: bool)
      requires a.db.Some?
      modifies this
      ensures (world, ok) == SwapIn(old(world), a, listing, env)
    {
      ok := AtomicReplace(a.db.value, DbFile);
      if !ok {
        return;
      }
      ok := PerformAll(SidecarOps(DbFile));
      if !ok {
        return;
      }
      if a.credentials.Some? {
        ok := AtomicReplace(a.credentials.value, CredentialsFile);
        if !ok {
          return;
        }
        ok := PerformAll(SidecarOps(CredentialsFile));
      } else {
        ok := PerformAll(WithSidecarsOps(CredentialsFile));
      }
      if !ok {
        return;
      }
      ok := PerformAll(SyncOps(a));
      if !ok {
        return;
      }
      ok := PerformAll(ToolOps(a, listing));
    }

    method Restore(name: string, listing: Listing) returns (outcome: Outcome)
      modifies this
      ensures (world, outcome) == RestoreFromBackup(old(world), name, listing, env)
    {
      var result := Snapshot(listing.safetyName, listing.syncFiles, listing.tools);
      if result.OsError? || name !in world.backups {
        return Failed;
      }
      var a := world.backups[name];
      if !Valid(a, env) {
        return InvalidArchive;
      }
      world := world.(engine := Disposed);
      var ok := SwapInArchive(a, listing.tools);
      var cleaned := PerformAll(WithSidecarsOps(AgentOsFile));
      if cleaned {
        world := world.(engine := Dropped);
      }
      return if ok && cleaned then Restored else Failed;
    }
  }

  /** Once a step has failed, the rest is not run. */
  lemma {:induction false} FailureIsFinal(w: World, ops: seq<Op>, i: nat, env: Env)
    requires i <= |ops| && !DoAll(w, ops[..i], env).1
    ensures DoAll(w, ops, env) == DoAll(w, ops[..i], env)
    decreases |ops| - i
  {
    if i == |ops| {
      assert ops[..i] == ops;
    } else {
      assert ops[..i + 1][..i] == ops[..i];
      FailureIsFinal(w, ops, i + 1, env);
    }
  }
}
