/** Crash safety of a restore (server/src/rivulets/backup.py:320-337, 400-462): what the two database files hold after every
    step, and what a refused restore leaves alone. */
module RestoreSafety {
  import opened Prelude
  import opened Backup

  ghost predicate Touches(op: Op, p: Path) {
    match op
    case Tear(q) => q == p
    case Put(q, _) => q == p
    case Rename(s, q) => s == p || q == p
    case Unlink(q) => q == p
    case MakeSyncDir => false
    case MakeToolsDir => false
  }

  /** v continues w: its log extends w's, and ends with its disk if anything was logged. */
  ghost predicate Continues(w: World, v: World) {
    && |w.log| <= |v.log| && v.log[..|w.log|] == w.log
    && (|w.log| < |v.log| ==> v.log[|v.log| - 1] == v.disk)
    && (|w.log| == |v.log| ==> v.disk == w.disk)
  }

  /** From `from` on, p holds c in every state of the log. */
  ghost predicate Holds(log: seq<Disk>, from: nat, p: Path, c: Option<string>) {
    forall i :: from <= i < |log| ==> Get(log[i], p) == c
  }

  ghost predicate SwitchesAt(log: seq<Disk>, from: nat, j: nat, p: Path, before: Option<string>, after: Option<string>) {
    && from <= j <= |log|
    && (forall i :: from <= i < j ==> Get(log[i], p) == before)
    && Holds(log, j, p, after)
  }

  /** From `from` on, p holds what it held before and then, from some point, what it holds
      after: never anything else, and never back. */
  ghost predicate Switches(log: seq<Disk>, from: nat, p: Path, before: Option<string>, after: Option<string>) {
    exists j :: SwitchesAt(log, from, j, p, before, after)
  }

  /** On the way from w to v the content of p does not change. */
  ghost predicate Keeps(w: World, v: World, p: Path) {
    Continues(w, v) && Holds(v.log, |w.log|, p, Get(w.disk, p)) && Get(v.disk, p) == Get(w.disk, p)
  }

  lemma ContinuesTransitive(u: World, v: World, w: World)
    requires Continues(u, v) && Continues(v, w)
    ensures Continues(u, w)
  {
    assert w.log[..|v.log|][..|u.log|] == w.log[..|u.log|];
  }

  lemma UntouchedByOne(w: World, v: World, op: Op, env: Env, p: Path)
    requires Keeps(w, v, p) && !Touches(op, p)
    ensures Keeps(w, Do(v, op, env).0, p)
  {
    var u := Do(v, op, env).0;
    assert u.log[..|v.log|] == v.log;
    assert u.log[..|w.log|] == v.log[..|w.log|];
    assert forall i :: |w.log| <= i < |v.log| ==> u.log[i] == v.log[i];
  }

  lemma {:induction false} UntouchedByAll(w: World, ops: seq<Op>, env: Env, p: Path)
    requires forall op :: op in ops ==> !Touches(op, p)
    ensures Keeps(w, DoAll(w, ops, env).0, p)
  {
    if ops != [] {
      var n := |ops| - 1;
      UntouchedByAll(w, ops[..n], env, p);
      assert ops[n] in ops;
      UntouchedByOne(w, DoAll(w, ops[..n], env).0, ops[n], env, p);
    }
  }

  lemma OneMore(w: World, ops: seq<Op>, op: Op, env: Env)
    ensures DoAll(w, ops + [op], env) == var (v, ok) := DoAll(w, ops, env); if ok then Do(v, op, env) else (v, false)
  {
    assert (ops + [op])[..|ops|] == ops;
  }

  lemma UntouchedByReplace(w: World, content: string, dest: Path, env: Env, p: Path)
    requires p != dest && p != Staging(dest)
    ensures Keeps(w, Replace(w, content, dest, env).0, p)
  {
    var staging := Staging(dest);
    var ops := [Tear(staging), Put(staging, content), Rename(staging, dest)];
    UntouchedByAll(w, ops, env, p);
  }

  /** The copy beside dest leaves dest alone, and is complete when it does not fail. */
  lemma CopyStages(w: World, content: string, dest: Path, env: Env)
    ensures var (u, ok) := DoAll(w, [Tear(Staging(dest)), Put(Staging(dest), content)], env);
            Keeps(w, u, dest) && (ok ==> Get(u.disk, Staging(dest)) == Some(content))
  {
    var staging := Staging(dest);
    UntouchedByAll(w, [Tear(staging), Put(staging, content)], env, dest);
    OneMore(w, [Tear(staging)], Put(staging, content), env);
    assert [Tear(staging)] + [Put(staging, content)] == [Tear(staging), Put(staging, content)];
  }

  lemma RenameSwitches(w: World, u: World, staging: Path, dest: Path, content: string, env: Env)
    requires Keeps(w, u, dest) && staging != dest && Get(u.disk, staging) == Some(content)
    ensures var (v, ok) := Do(u, Rename(staging, dest), env); if ok then Switched(w, v, dest, Some(content)) else Keeps(w, v, dest)
  {
    var (v, ok) := Do(u, Rename(staging, dest), env);
    assert v.log[..|u.log|] == u.log;
    assert v.log[..|w.log|] == u.log[..|w.log|];
    assert forall i :: |w.log| <= i < |u.log| ==> v.log[i] == u.log[i];
    if ok {
      assert SwitchesAt(v.log, |w.log|, |u.log|, dest, Get(w.disk, dest), Some(content));
    }
  }

  /** Three steps replace dest in one: at every moment it holds the old content or the new. */
  lemma ReplaceSwitches(w: World, content: string, dest: Path, env: Env)
    ensures var (v, ok) := Replace(w, content, dest, env);
            if ok then Switched(w, v, dest, Some(content)) else Keeps(w, v, dest)
  {
    var staging := Staging(dest);
    var two := [Tear(staging), Put(staging, content)];
    OneMore(w, two, Rename(staging, dest), env);
    assert two + [Rename(staging, dest)] == [Tear(staging), Put(staging, content), Rename(staging, dest)];
    CopyStages(w, content, dest, env);
    var (u, copied) := DoAll(w, two, env);
    if copied {
      RenameSwitches(w, u, staging, dest, content, env);
    }
    var (v, ok) := DoAll(w, two + [Rename(staging, dest)], env);
    if !ok {
      UntouchedByOne(w, v, Unlink(staging), env, dest);
    }
  }

  lemma OpsSparePaths(a: Archive, listing: seq<string>)
    ensures forall op, p :: op in SyncOps(a) && Touches(op, p) ==> p.SyncFile?
    ensures forall op, p :: op in ToolOps(a, listing) && Touches(op, p) ==> p.ToolFile?
  {
    if a.syncFiles.Some? {
      CopySyncTouches(a.syncFiles.value);
    }
    if a.tools.Some? {
      CopyToolTouches(a.tools.value);
    }
    ClearToolTouches(listing);
  }

  lemma {:induction false} CopySyncTouches(entries: seq<Entry>)
    ensures forall op, p :: op in CopySyncOps(entries) && Touches(op, p) ==> p.SyncFile?
  {
    if entries != [] {
      CopySyncTouches(entries[..|entries| - 1]);
    }
  }

  lemma {:induction false} CopyToolTouches(entries: seq<Entry>)
    ensures forall op, p :: op in CopyToolOps(entries) && Touches(op, p) ==> p.ToolFile?
  {
    if entries != [] {
      CopyToolTouches(entries[..|entries| - 1]);
    }
  }

  lemma {:induction false} ClearToolTouches(listing: seq<string>)
    ensures forall op, p :: op in ClearToolOps(listing) && Touches(op, p) ==> p.ToolFile?
  {
    if listing != [] {
      ClearToolTouches(listing[..|listing| - 1]);
    }
  }

  // ----- the two databases of a workspace -----

  predicate IsDatabase(p: Path) {
    p.DbFile? || p.CredentialsFile?
  }

  function Archived(a: Archive, p: Path): Option<string>
    requires IsDatabase(p)
  {
    if p.DbFile? then a.db else a.credentials
  }

  /** The steps around the two swaps leave both databases alone. */
  lemma OthersSpareDatabases(w: World, a: Archive, listing: seq<string>, env: Env, p: Path)
    requires IsDatabase(p)
    ensures Keeps(w, DoAll(w, SidecarOps(DbFile), env).0, p)
    ensures Keeps(w, DoAll(w, SyncOps(a), env).0, p)
    ensures Keeps(w, DoAll(w, ToolOps(a, listing), env).0, p)
    ensures Keeps(w, DoAll(w, WithSidecarsOps(AgentOsFile), env).0, p)
  {
    OpsSparePaths(a, listing);
    UntouchedByAll(w, SidecarOps(DbFile), env, p);
    UntouchedByAll(w, SyncOps(a), env, p);
    UntouchedByAll(w, ToolOps(a, listing), env, p);
    UntouchedByAll(w, WithSidecarsOps(AgentOsFile), env, p);
  }

  lemma CredentialsSpareDatabase(w: World, a: Archive, env: Env)
    ensures Keeps(w, RestoreCredentials(w, a, env).0, DbFile)
  {
    UntouchedByAll(w, WithSidecarsOps(CredentialsFile), env, DbFile);
    if a.credentials.Some? {
      UntouchedByReplace(w, a.credentials.value, CredentialsFile, env, DbFile);
      var v := Replace(w, a.credentials.value, CredentialsFile, env).0;
      UntouchedByAll(v, SidecarOps(CredentialsFile), env, DbFile);
      KeepsOn(w, v, DoAll(v, SidecarOps(CredentialsFile), env).0, DbFile);
    }
  }

  lemma KeepsOn(u: World, v: World, w: World, p: Path)
    requires Keeps(u, v, p) && Keeps(v, w, p)
    ensures Keeps(u, w, p)
  {
    ContinuesTransitive(u, v, w);
    assert forall i :: |u.log| <= i < |v.log| ==> w.log[i] == v.log[i];
  }

  /** Between u and w, p switches to `after`, and ends there. */
  ghost predicate Switched(u: World, w: World, p: Path, after: Option<string>) {
    Continues(u, w) && Switches(w.log, |u.log|, p, Get(u.disk, p), after) && Get(w.disk, p) == after
  }

  lemma SwitchedOn(u: World, v: World, w: World, p: Path, after: Option<string>)
    requires Switched(u, v, p, after) && Keeps(v, w, p)
    ensures Switched(u, w, p, after)
  {
    ContinuesTransitive(u, v, w);
    assert forall i :: |u.log| <= i < |v.log| ==> w.log[i] == v.log[i];
    var j :| SwitchesAt(v.log, |u.log|, j, p, Get(u.disk, p), after);
    assert SwitchesAt(w.log, |u.log|, j, p, Get(u.disk, p), after);
  }

  lemma SwitchedAfter(u: World, v: World, w: World, p: Path, after: Option<string>)
    requires Keeps(u, v, p) && Switched(v, w, p, after)
    ensures Switched(u, w, p, after)
  {
    ContinuesTransitive(u, v, w);
    assert forall i :: |u.log| <= i < |v.log| ==> w.log[i] == v.log[i];
    var j :| SwitchesAt(w.log, |v.log|, j, p, Get(v.disk, p), after);
    assert SwitchesAt(w.log, |u.log|, j, p, Get(u.disk, p), after);
  }

  /** Either p keeps its content throughout, or it has switched for good; a success means the latter. */
  ghost predicate Moves(u: World, w: World, p: Path, after: Option<string>, ok: bool) {
    Switched(u, w, p, after) || (!ok && Keeps(u, w, p))
  }

  lemma MovesOn(u: World, v: World, w: World, p: Path, after: Option<string>, ok: bool, still: bool)
    requires Moves(u, v, p, after, ok) && Keeps(v, w, p) && (still ==> ok)
    ensures Moves(u, w, p, after, still)
  {
    if Switched(u, v, p, after) {
      SwitchedOn(u, v, w, p, after);
    } else {
      KeepsOn(u, v, w, p);
    }
  }

  lemma MovesAfter(u: World, v: World, w: World, p: Path, after: Option<string>, ok: bool)
    requires Keeps(u, v, p) && Moves(v, w, p, after, ok)
    ensures Moves(u, w, p, after, ok)
  {
    if Switched(v, w, p, after) {
      SwitchedAfter(u, v, w, p, after);
    } else {
      KeepsOn(u, v, w, p);
    }
  }

  lemma UnlinkMoves(w: World, p: Path, env: Env)
    ensures var (v, ok) := Do(w, Unlink(p), env); Moves(w, v, p, None, ok)
  {
    var (v, ok) := Do(w, Unlink(p), env);
    if ok {
      assert SwitchesAt(v.log, |w.log|, |w.log|, p, Get(w.disk, p), None);
    }
  }

  lemma UnlinkAllMoves(w: World, p: Path, env: Env)
    requires IsDatabase(p)
    ensures var (v, ok) := DoAll(w, WithSidecarsOps(p), env); Moves(w, v, p, None, ok)
  {
    var one, two := [Unlink(p)], [Unlink(p), Unlink(Wal(p))];
    UnlinkMoves(w, p, env);
    OneMore(w, [], Unlink(p), env);
    OneMore(w, one, Unlink(Wal(p)), env);
    OneMore(w, two, Unlink(Shm(p)), env);
    assert [] + [Unlink(p)] == one && one + [Unlink(Wal(p))] == two && two + [Unlink(Shm(p))] == WithSidecarsOps(p);
    var (w1, ok1) := DoAll(w, one, env);
    if ok1 {
      UntouchedByOne(w1, w1, Unlink(Wal(p)), env, p);
      var (w2, ok2) := Do(w1, Unlink(Wal(p)), env);
      SwitchedOn(w, w1, w2, p, None);
      if ok2 {
        UntouchedByOne(w2, w2, Unlink(Shm(p)), env, p);
        SwitchedOn(w, w2, Do(w2, Unlink(Shm(p)), env).0, p, None);
      }
    }
  }

  lemma CredentialsMove(w: World, a: Archive, env: Env)
    ensures var (v, ok) := RestoreCredentials(w, a, env); Moves(w, v, CredentialsFile, a.credentials, ok)
  {
    if a.credentials.None? {
      UnlinkAllMoves(w, CredentialsFile, env);
    } else {
      ReplaceSwitches(w, a.credentials.value, CredentialsFile, env);
      var (v, ok) := Replace(w, a.credentials.value, CredentialsFile, env);
      if ok {
        UntouchedByAll(v, SidecarOps(CredentialsFile), env, CredentialsFile);
        SwitchedOn(w, v, DoAll(v, SidecarOps(CredentialsFile), env).0, CredentialsFile, a.credentials);
      }
    }
  }

  /** The state of the swap after the database and its sidecars: the database has moved, the credentials have not. */
  lemma DatabaseMoves(w: World, a: Archive, env: Env)
    requires a.db.Some?
    ensures var (w1, ok1) := Replace(w, a.db.value, DbFile, env);
            var (w2, ok2) := DoAll(w1, SidecarOps(DbFile), env);
            && Moves(w, w1, DbFile, a.db, ok1) && Keeps(w, w1, CredentialsFile)
            && (ok1 ==> Switched(w, w2, DbFile, a.db)) && Keeps(w, w2, CredentialsFile)
  {
    ReplaceSwitches(w, a.db.value, DbFile, env);
    UntouchedByReplace(w, a.db.value, DbFile, env, CredentialsFile);
    var (w1, ok1) := Replace(w, a.db.value, DbFile, env);
    UntouchedByAll(w1, SidecarOps(DbFile), env, DbFile);
    UntouchedByAll(w1, SidecarOps(DbFile), env, CredentialsFile);
    var w2 := DoAll(w1, SidecarOps(DbFile), env).0;
    KeepsOn(w, w1, w2, CredentialsFile);
    if ok1 {
      SwitchedOn(w, w1, w2, DbFile, a.db);
    }
  }

  /** The rest of the swap, once the database is in place. */
  function FromCredentials(w: World, a: Archive, listing: seq<string>, env: Env): (World, bool) {
    var (w3, ok3) := RestoreCredentials(w, a, env);
    if !ok3 then (w3, false) else
    var (w4, ok4) := DoAll(w3, SyncOps(a), env);
    if !ok4 then (w4, false) else
    DoAll(w4, ToolOps(a, listing), env)
  }

  /** From the credentials on: the database stays, the credentials move. */
  lemma CredentialsSwapIn(w: World, a: Archive, listing: seq<string>, env: Env)
    ensures var (v, ok) := FromCredentials(w, a, listing, env);
            Keeps(w, v, DbFile) && Moves(w, v, CredentialsFile, a.credentials, ok)
  {
    var (w3, ok3) := RestoreCredentials(w, a, env);
    CredentialsSpareDatabase(w, a, env);
    CredentialsMove(w, a, env);
    if ok3 {
      OthersSpareDatabases(w3, a, listing, env, DbFile);
      OthersSpareDatabases(w3, a, listing, env, CredentialsFile);
      var (w4, ok4) := DoAll(w3, SyncOps(a), env);
      KeepsOn(w, w3, w4, DbFile);
      MovesOn(w, w3, w4, CredentialsFile, a.credentials, ok3, ok4);
      if ok4 {
        OthersSpareDatabases(w4, a, listing, env, DbFile);
        OthersSpareDatabases(w4, a, listing, env, CredentialsFile);
        var (w5, ok5) := DoAll(w4, ToolOps(a, listing), env);
        KeepsOn(w, w4, w5, DbFile);
        MovesOn(w, w4, w5, CredentialsFile, a.credentials, ok4, ok5);
      }
    }
  }

  /** Either the swap never happened and a database is the old one throughout, or it has
      switched to the archived one for good. */
  lemma SwapInMoves(w: World, a: Archive, listing: seq<string>, env: Env, p: Path)
    requires a.db.Some? && IsDatabase(p)
    ensures var (v, ok) := SwapIn(w, a, listing, env); Moves(w, v, p, Archived(a, p), ok)
  {
    DatabaseMoves(w, a, env);
    var (w1, ok1) := Replace(w, a.db.value, DbFile, env);
    if ok1 {
      var (w2, ok2) := DoAll(w1, SidecarOps(DbFile), env);
      if ok2 {
        CredentialsSwapIn(w2, a, listing, env);
        var (v, ok) := FromCredentials(w2, a, listing, env);
        if p.DbFile? {
          SwitchedOn(w, w2, v, DbFile, a.db);
        } else {
          MovesAfter(w, w2, v, CredentialsFile, a.credentials, ok);
        }
      }
    }
  }

  /** The archive a restore reads: what has that name once the safety snapshot is written. */
  function ArchiveRead(w: World, name: string, listing: Listing, env: Env): Option<Archive> {
    var (v, saved) := CreateBackup(w, listing.safetyName, listing.syncFiles, listing.tools, env);
    if saved.OsError? || name !in v.backups then None else Some(v.backups[name])
  }

  lemma CreateBackupKeepsDisk(w: World, name: string, syncListing: seq<string>, toolListing: seq<string>, env: Env)
    ensures var v := CreateBackup(w, name, syncListing, toolListing, env).0;
            v.disk == w.disk && v.engine == w.engine && v.log == w.log + [w.disk] && forall p :: Keeps(w, v, p)
  {
  }

  lemma ArchiveMoves(w: World, a: Archive, listing: seq<string>, env: Env, p: Path)
    requires Valid(a, env) && IsDatabase(p)
    ensures var (v, outcome) := RestoreArchive(w, a, listing, env); Moves(w, v, p, Archived(a, p), outcome.Restored?)
  {
    var w2 := w.(engine := Disposed);
    SwapInMoves(w2, a, listing, env, p);
    var (w3, ok) := SwapIn(w2, a, listing, env);
    OthersSpareDatabases(w3, a, listing, env, p);
    var (w4, cleaned) := DoAll(w3, WithSidecarsOps(AgentOsFile), env);
    MovesOn(w2, w3, w4, p, Archived(a, p), ok, ok && cleaned);
    SameMoves(w2, w4, w, RestoreArchive(w, a, listing, env).0, p, Archived(a, p), ok && cleaned);
  }

  /** Moves looks at the disk and the log only. */
  lemma SameMoves(u: World, w: World, u': World, w': World, p: Path, after: Option<string>, ok: bool)
    requires Moves(u, w, p, after, ok) && u'.disk == u.disk && u'.log == u.log && w'.disk == w.disk && w'.log == w.log
    ensures Moves(u', w', p, after, ok)
  {
  }

  /** Crash safety: whatever step fails and wherever the process stops, the database file holds exactly what it held or
      exactly what the archive holds, and never goes back; so does the credentials file, which an archive without
      credentials removes. */
  lemma RestoreIsCrashSafe(w: World, name: string, listing: Listing, env: Env, p: Path)
    requires IsDatabase(p)
    ensures var (v, outcome) := RestoreFromBackup(w, name, listing, env);
            var a := ArchiveRead(w, name, listing, env);
            if a.Some? && Valid(a.value, env) then Moves(w, v, p, Archived(a.value, p), outcome.Restored?)
            else !outcome.Restored? && Keeps(w, v, p)
  {
    CreateBackupKeepsDisk(w, listing.safetyName, listing.syncFiles, listing.tools, env);
    var w1 := CreateBackup(w, listing.safetyName, listing.syncFiles, listing.tools, env).0;
    var a := ArchiveRead(w, name, listing, env);
    if a.Some? && Valid(a.value, env) {
      ArchiveMoves(w1, a.value, listing.tools, env, p);
      var (v, outcome) := RestoreArchive(w1, a.value, listing.tools, env);
      MovesAfter(w, w1, v, p, Archived(a.value, p), outcome.Restored?);
    }
  }

  // ----- both databases at once -----

  /** Both old, or the database new and the credentials old, or both new. */
  ghost predicate InOrder(d: Disk, before: Disk, a: Archive) {
    || (Get(d, CredentialsFile) == Get(before, CredentialsFile) && (Get(d, DbFile) == Get(before, DbFile) || Get(d, DbFile) == a.db))
    || (Get(d, CredentialsFile) == a.credentials && Get(d, DbFile) == a.db)
  }

  /** So it is at every moment between u and w. */
  ghost predicate AllInOrder(u: World, w: World, a: Archive) {
    && Continues(u, w) && InOrder(w.disk, u.disk, a)
    && forall i :: |u.log| <= i < |w.log| ==> InOrder(w.log[i], u.disk, a)
  }

  lemma BeforeCredentials(u: World, w: World, a: Archive, ok: bool)
    requires Moves(u, w, DbFile, a.db, ok) && Keeps(u, w, CredentialsFile)
    ensures AllInOrder(u, w, a)
  {
  }

  lemma ThenCredentials(u: World, v: World, w: World, a: Archive, ok: bool)
    requires Switched(u, v, DbFile, a.db) && Keeps(u, v, CredentialsFile)
    requires Keeps(v, w, DbFile) && Moves(v, w, CredentialsFile, a.credentials, ok)
    ensures AllInOrder(u, w, a)
  {
    ContinuesTransitive(u, v, w);
    BeforeCredentials(u, v, a, true);
    forall i | |u.log| <= i < |w.log| ensures InOrder(w.log[i], u.disk, a) {
      if i < |v.log| {
        assert w.log[i] == v.log[i];
      }
    }
  }

  lemma SwapInInOrder(w: World, a: Archive, listing: seq<string>, env: Env)
    requires a.db.Some?
    ensures AllInOrder(w, SwapIn(w, a, listing, env).0, a)
  {
    DatabaseMoves(w, a, env);
    var (w1, ok1) := Replace(w, a.db.value, DbFile, env);
    var (w2, ok2) := DoAll(w1, SidecarOps(DbFile), env);
    if !ok1 {
      BeforeCredentials(w, w1, a, ok1);
    } else if !ok2 {
      BeforeCredentials(w, w2, a, ok1);
    } else {
      CredentialsSwapIn(w2, a, listing, env);
      var (v, ok) := FromCredentials(w2, a, listing, env);
      ThenCredentials(w, w2, v, a, ok);
    }
  }

  lemma InOrderOn(u: World, v: World, w: World, a: Archive)
    requires AllInOrder(u, v, a) && Keeps(v, w, DbFile) && Keeps(v, w, CredentialsFile)
    ensures AllInOrder(u, w, a)
  {
    ContinuesTransitive(u, v, w);
    forall i | |u.log| <= i < |w.log| ensures InOrder(w.log[i], u.disk, a) {
      if i < |v.log| {
        assert w.log[i] == v.log[i];
      }
    }
  }

  lemma ArchiveInOrder(w: World, a: Archive, listing: seq<string>, env: Env)
    requires Valid(a, env)
    ensures AllInOrder(w, RestoreArchive(w, a, listing, env).0, a)
  {
    var w2 := w.(engine := Disposed);
    SwapInInOrder(w2, a, listing, env);
    var w3 := SwapIn(w2, a, listing, env).0;
    OthersSpareDatabases(w3, a, listing, env, DbFile);
    OthersSpareDatabases(w3, a, listing, env, CredentialsFile);
    var w4 := DoAll(w3, WithSidecarsOps(AgentOsFile), env).0;
    InOrderOn(w2, w3, w4, a);
  }

  /** Whatever step fails and wherever the process stops, archived credentials are never beside the old database. */
  lemma DatabaseBeforeCredentials(w: World, name: string, listing: Listing, env: Env)
    requires var a := ArchiveRead(w, name, listing, env); a.Some? && Valid(a.value, env)
    ensures AllInOrder(w, RestoreFromBackup(w, name, listing, env).0, ArchiveRead(w, name, listing, env).value)
  {
    CreateBackupKeepsDisk(w, listing.safetyName, listing.syncFiles, listing.tools, env);
    var w1 := CreateBackup(w, listing.safetyName, listing.syncFiles, listing.tools, env).0;
    var a := ArchiveRead(w, name, listing, env).value;
    ArchiveInOrder(w1, a, listing.tools, env);
    var v := RestoreArchive(w1, a, listing.tools, env).0;
    ContinuesTransitive(w, w1, v);
    assert v.log[..|w1.log|][|w.log|] == w.disk;
  }

  /** An archive that is missing a database, or holds one that fails its check, is refused before anything is
      touched; so is a restore whose safety snapshot cannot be written or whose archive is not there. */
  lemma RefusedRestoreTouchesNothing(w: World, name: string, listing: Listing, env: Env)
    ensures var (v, outcome) := RestoreFromBackup(w, name, listing, env);
            var a := ArchiveRead(w, name, listing, env);
            && (outcome.InvalidArchive? <==>
                  a.Some? && (a.value.db.None? || !env.intact(a.value.db.value)
                              || (a.value.credentials.Some? && !env.intact(a.value.credentials.value))))
            && (a.None? || !Valid(a.value, env) ==>
                  v.disk == w.disk && v.engine == w.engine && forall i :: |w.log| <= i < |v.log| ==> v.log[i] == w.disk)
  {
    CreateBackupKeepsDisk(w, listing.safetyName, listing.syncFiles, listing.tools, env);
  }
}
