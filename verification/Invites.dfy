/** Invite redemption around one SQLite file (server/src/rivulets/api/invites.py): requests run step by
    step and interleave freely. A request reads what is committed until its first write; that write takes
    the one write lock, what it writes stays its own until it commits, and a rollback drops it. */
module Invites {
  import opened Prelude

  type Id = string

  datatype Invite = Invite(secret: string, maxUses: int, useCount: int, revoked: bool, expiresAt: int)

  datatype InviteSession = InviteSession(secret: string, inviteId: Id, expiresAt: int)

  datatype Db = Db(invites: map<Id, Invite>, sessions: map<Id, InviteSession>)

  /** A request, with the ids and secrets of the rows it is going to insert. */
  datatype Request =
    | Create(newInviteId: Id, newSecret: string, maxUses: int, inviteExpiresAt: int)
    | Accept(inviteId: Id, secret: string, newSessionId: Id, resumeSecret: string)
    | Revoke(revokedId: Id)
    | Resume(sessionId: Id, resumeWith: string)

  /** Where a request stands. The steps from Reserving on hold the write lock until Done or Failed. */
  datatype Pc =
    | Start
    | Checked                      // accept: the friendly checks have passed
    | SawSession(inviteOf: Id)     // resume: the session row has been read
    | SawInvite                    // resume: its invite was read and not revoked
    | FoundInvite                  // revoke: the invite was read
    | Reserved                     // accept: the compare-and-swap has matched
    | Refused                      // accept: it has matched no row
    | Written                      // everything is written, nothing committed
    | Done
    | Failed

  datatype Proc = Proc(request: Request, pc: Pc)

  /** view is what the holder of the lock sees: the committed rows and its own writes. */
  datatype World = World(db: Db, lock: Option<Id>, view: Db, procs: map<Id, Proc>)

  const RESUME_TTL := 30 * 24 * 3600

  function MoveTo(w: World, p: Id, pc: Pc): World
    requires p in w.procs
  {
    w.(procs := w.procs[p := w.procs[p].(pc := pc)])
  }

  /** The first write of p: it takes the lock if that is free, and waits otherwise. */
  function FirstWrite(w: World, p: Id, view: Db, pc: Pc): World
    requires p in w.procs
  {
    if w.lock.Some? then w else MoveTo(w.(lock := Some(p), view := view), p, pc)
  }

  function Commit(w: World, p: Id): World
    requires p in w.procs
  {
    MoveTo(w.(db := w.view, lock := None), p, Done)
  }

  /** An error, a lost client or a crash of the request: what it had not committed is gone. */
  function Rollback(w: World, p: Id): World
    requires p in w.procs
  {
    MoveTo(if w.lock == Some(p) then w.(lock := None) else w, p, Failed)
  }

  /** The WHERE clause of _reserve_redemption_slot. */
  predicate Redeemable(db: Db, i: Id, now: int) {
    && i in db.invites && !db.invites[i].revoked
    && db.invites[i].useCount < db.invites[i].maxUses && db.invites[i].expiresAt > now
  }

  function WithUse(db: Db, i: Id): Db
    requires i in db.invites
  {
    db.(invites := db.invites[i := db.invites[i].(useCount := db.invites[i].useCount + 1)])
  }

  function WithRevoked(db: Db, i: Id): Db
    requires i in db.invites
  {
    db.(invites := db.invites[i := db.invites[i].(revoked := true)])
  }

  function WithSession(db: Db, s: Id, row: InviteSession): Db {
    db.(sessions := db.sessions[s := row])
  }

  function CreateStep(w: World, p: Id, r: Request): World
    requires p in w.procs && r.Create?
  {
    match w.procs[p].pc
    case Start =>
      if r.newInviteId in w.db.invites then Rollback(w, p)
      else
        var row := Invite(r.newSecret, r.maxUses, 0, false, r.inviteExpiresAt);
        FirstWrite(w, p, w.db.(invites := w.db.invites[r.newInviteId := row]), Written)
    case Written => Commit(w, p)
    case _ => w
  }

  function AcceptStep(w: World, p: Id, r: Request, now: int): World
    requires p in w.procs && r.Accept?
  {
    match w.procs[p].pc
    case Start =>
      if r.inviteId in w.db.invites && w.db.invites[r.inviteId].secret == r.secret
         && !w.db.invites[r.inviteId].revoked && !(w.db.invites[r.inviteId].expiresAt < now)
         && w.db.invites[r.inviteId].useCount < w.db.invites[r.inviteId].maxUses
      then MoveTo(w, p, Checked)
      else Rollback(w, p)
    case Checked =>
      if Redeemable(w.db, r.inviteId, now) then FirstWrite(w, p, WithUse(w.db, r.inviteId), Reserved)
      else FirstWrite(w, p, w.db, Refused)
    case Reserved =>
      if r.newSessionId in w.view.sessions then Rollback(w, p)
      else
        var row := InviteSession(r.resumeSecret, r.inviteId, now + RESUME_TTL);
        MoveTo(w.(view := WithSession(w.view, r.newSessionId, row)), p, Written)
    case Refused => Rollback(w, p)
    case Written => Commit(w, p)
    case _ => w
  }

  function RevokeStep(w: World, p: Id, r: Request): World
    requires p in w.procs && r.Revoke?
  {
    match w.procs[p].pc
    case Start => if r.revokedId in w.db.invites then MoveTo(w, p, FoundInvite) else Rollback(w, p)
    case FoundInvite =>
      if r.revokedId in w.db.invites then FirstWrite(w, p, WithRevoked(w.db, r.revokedId), Written) else Rollback(w, p)
    case Written => Commit(w, p)
    case _ => w
  }

  function ResumeStep(w: World, p: Id, r: Request, now: int): World
    requires p in w.procs && r.Resume?
  {
    var s := r.sessionId;
    match w.procs[p].pc
    case Start =>
      if s in w.db.sessions && w.db.sessions[s].secret == r.resumeWith && !(w.db.sessions[s].expiresAt < now)
      then MoveTo(w, p, SawSession(w.db.sessions[s].inviteId))
      else Rollback(w, p)
    case SawSession(i) =>
      if i in w.db.invites && !w.db.invites[i].revoked then MoveTo(w, p, SawInvite) else Rollback(w, p)
    case SawInvite =>
      if s in w.db.sessions
      then FirstWrite(w, p, WithSession(w.db, s, w.db.sessions[s].(expiresAt := now + RESUME_TTL)), Written)
      else Rollback(w, p)
    case Written => Commit(w, p)
    case _ => w
  }

  /** One step of the interleaving: a request arrives, a request moves, or a request is rolled back. */
  datatype Step = Arrive(who: Id, request: Request) | Move(who: Id, now: int) | Abort(who: Id)

  predicate Ended(pc: Pc) {
    pc.Done? || pc.Failed?
  }

  function Next(w: World, step: Step): World {
    match step
    case Arrive(p, r) => if p in w.procs then w else w.(procs := w.procs[p := Proc(r, Start)])
    case Abort(p) => if p in w.procs && !Ended(w.procs[p].pc) then Rollback(w, p) else w
    case Move(p, now) =>
      if p !in w.procs then w
      else
        var r := w.procs[p].request;
        match r
        case Create(_, _, _, _) => CreateStep(w, p, r)
        case Accept(_, _, _, _) => AcceptStep(w, p, r, now)
        case Revoke(_) => RevokeStep(w, p, r)
        case Resume(_, _) => ResumeStep(w, p, r, now)
  }

  function Run(w: World, steps: seq<Step>): World {
    if steps == [] then w else Next(Run(w, steps[..|steps| - 1]), steps[|steps| - 1])
  }

  // ----- conservation -----

  function SessionsOf(db: Db, i: Id): set<Id> {
    set s | s in db.sessions && db.sessions[s].inviteId == i
  }

  /** Every use of an invite is a session, and no invite is used more often than it allows. */
  ghost predicate Conserved(db: Db) {
    && (forall i :: i in db.invites ==>
          |SessionsOf(db, i)| == db.invites[i].useCount
          && (db.invites[i].useCount <= db.invites[i].maxUses || db.invites[i].useCount == 0))
    && (forall s :: s in db.sessions ==> db.sessions[s].inviteId in db.invites)
  }

  predicate HoldsLock(pc: Pc) {
    pc.Reserved? || pc.Refused? || pc.Written?
  }

  /** What the holder of the lock has written on top of the committed rows. */
  ghost predicate ViewOf(db: Db, view: Db, proc: Proc) {
    match proc.pc
    case Reserved =>
      proc.request.Accept? && UnderLimit(db, proc.request.inviteId) && view == WithUse(db, proc.request.inviteId)
    case Refused => view == db
    case Written =>
      (match proc.request
       case Create(i, secret, max, expires) =>
         i !in db.invites && view == db.(invites := db.invites[i := Invite(secret, max, 0, false, expires)])
       case Accept(i, _, s, secret) =>
         && UnderLimit(db, i) && s !in db.sessions
         && s in view.sessions && view.sessions[s].inviteId == i && view.sessions[s].secret == secret
         && view == WithSession(WithUse(db, i), s, view.sessions[s])
       case Revoke(i) => i in db.invites && view == WithRevoked(db, i)
       case Resume(s, _) =>
         && s in db.sessions && s in view.sessions && view.sessions[s].inviteId == db.sessions[s].inviteId
         && view.sessions[s].secret == db.sessions[s].secret
         && view == WithSession(db, s, view.sessions[s]))
    case _ => false
  }

  ghost predicate UnderLimit(db: Db, i: Id) {
    i in db.invites && !db.invites[i].revoked && db.invites[i].useCount < db.invites[i].maxUses
  }

  /** One request at most writes, and it is the one that holds the lock. */
  ghost predicate Exclusive(w: World) {
    && (w.lock.Some? ==> w.lock.value in w.procs && ViewOf(w.db, w.view, w.procs[w.lock.value]))
    && (forall p :: p in w.procs && HoldsLock(w.procs[p].pc) ==> w.lock == Some(p))
  }

  ghost predicate Inv(w: World) {
    Conserved(w.db) && Exclusive(w)
  }

  lemma AddingSession(db: Db, s: Id, row: InviteSession, i: Id)
    requires s !in db.sessions
    ensures |SessionsOf(WithSession(db, s, row), i)| == |SessionsOf(db, i)| + if i == row.inviteId then 1 else 0
  {
    var next := WithSession(db, s, row);
    if i == row.inviteId {
      assert SessionsOf(next, i) == SessionsOf(db, i) + {s};
    } else {
      assert SessionsOf(next, i) == SessionsOf(db, i);
    }
  }

  lemma SameSessions(db: Db, next: Db)
    requires db.sessions.Keys == next.sessions.Keys
    requires forall s :: s in db.sessions ==> next.sessions[s].inviteId == db.sessions[s].inviteId
    ensures forall i :: SessionsOf(next, i) == SessionsOf(db, i)
  {
  }

  /** What the holder of the lock commits keeps the books balanced. */
  lemma CommitConserves(db: Db, view: Db, proc: Proc)
    requires Conserved(db) && proc.pc.Written? && ViewOf(db, view, proc)
    ensures Conserved(view)
  {
    match proc.request
    case Create(i, _, _, _) =>
      SameSessions(db, view);
      assert SessionsOf(db, i) == {};
    case Accept(i, _, s, _) =>
      SameSessions(db, WithUse(db, i));
      forall j {
        AddingSession(WithUse(db, i), s, view.sessions[s], j);
      }
    case Revoke(i) => SameSessions(db, view);
    case Resume(s, _) => SameSessions(db, view);
  }

  /** A move that neither commits nor touches the lock keeps the invariant. */
  lemma MoveToKeepsInv(w: World, p: Id, pc: Pc)
    requires Inv(w) && p in w.procs && !HoldsLock(pc) && !HoldsLock(w.procs[p].pc)
    ensures Inv(MoveTo(w, p, pc))
  {
  }

  lemma FirstWriteKeepsInv(w: World, p: Id, view: Db, pc: Pc)
    requires Inv(w) && p in w.procs && !HoldsLock(w.procs[p].pc)
    requires ViewOf(w.db, view, Proc(w.procs[p].request, pc))
    ensures Inv(FirstWrite(w, p, view, pc))
  {
  }

  lemma RollbackKeepsInv(w: World, p: Id)
    requires Inv(w) && p in w.procs
    ensures Inv(Rollback(w, p))
  {
  }

  lemma CommitKeepsInv(w: World, p: Id)
    requires Inv(w) && p in w.procs && w.procs[p].pc.Written?
    ensures Inv(Commit(w, p))
  {
    CommitConserves(w.db, w.view, w.procs[p]);
  }

  lemma CreateKeepsInv(w: World, p: Id)
    requires Inv(w) && p in w.procs && w.procs[p].request.Create?
    ensures Inv(CreateStep(w, p, w.procs[p].request))
  {
    var r := w.procs[p].request;
    match w.procs[p].pc
    case Start =>
      RollbackKeepsInv(w, p);
      if r.newInviteId !in w.db.invites {
        var row := Invite(r.newSecret, r.maxUses, 0, false, r.inviteExpiresAt);
        FirstWriteKeepsInv(w, p, w.db.(invites := w.db.invites[r.newInviteId := row]), Written);
      }
    case Written => CommitKeepsInv(w, p);
    case _ =>
  }

  lemma ReservedKeepsInv(w: World, p: Id, now: int)
    requires Inv(w) && p in w.procs && w.procs[p].request.Accept? && w.procs[p].pc.Reserved?
    ensures Inv(AcceptStep(w, p, w.procs[p].request, now))
  {
    RollbackKeepsInv(w, p);
  }

  lemma AcceptKeepsInv(w: World, p: Id, now: int)
    requires Inv(w) && p in w.procs && w.procs[p].request.Accept?
    ensures Inv(AcceptStep(w, p, w.procs[p].request, now))
  {
    var r := w.procs[p].request;
    match w.procs[p].pc
    case Start =>
      RollbackKeepsInv(w, p);
      MoveToKeepsInv(w, p, Checked);
    case Checked =>
      FirstWriteKeepsInv(w, p, w.db, Refused);
      if Redeemable(w.db, r.inviteId, now) {
        FirstWriteKeepsInv(w, p, WithUse(w.db, r.inviteId), Reserved);
      }
    case Reserved => ReservedKeepsInv(w, p, now);
    case Refused => RollbackKeepsInv(w, p);
    case Written => CommitKeepsInv(w, p);
    case _ =>
  }

  lemma RevokeKeepsInv(w: World, p: Id)
    requires Inv(w) && p in w.procs && w.procs[p].request.Revoke?
    ensures Inv(RevokeStep(w, p, w.procs[p].request))
  {
    var i := w.procs[p].request.revokedId;
    match w.procs[p].pc
    case Start =>
      RollbackKeepsInv(w, p);
      MoveToKeepsInv(w, p, FoundInvite);
    case FoundInvite =>
      RollbackKeepsInv(w, p);
      if i in w.db.invites {
        FirstWriteKeepsInv(w, p, WithRevoked(w.db, i), Written);
      }
    case Written => CommitKeepsInv(w, p);
    case _ =>
  }

  lemma ResumeKeepsInv(w: World, p: Id, now: int)
    requires Inv(w) && p in w.procs && w.procs[p].request.Resume?
    ensures Inv(ResumeStep(w, p, w.procs[p].request, now))
  {
    var s := w.procs[p].request.sessionId;
    match w.procs[p].pc
    case Start =>
      RollbackKeepsInv(w, p);
      if s in w.db.sessions {
        MoveToKeepsInv(w, p, SawSession(w.db.sessions[s].inviteId));
      }
    case SawSession(_) =>
      RollbackKeepsInv(w, p);
      MoveToKeepsInv(w, p, SawInvite);
    case SawInvite =>
      RollbackKeepsInv(w, p);
      if s in w.db.sessions {
        FirstWriteKeepsInv(w, p, WithSession(w.db, s, w.db.sessions[s].(expiresAt := now + RESUME_TTL)), Written);
      }
    case Written => CommitKeepsInv(w, p);
    case _ =>
  }

  lemma NextKeepsInv(w: World, step: Step)
    requires Inv(w)
    ensures Inv(Next(w, step))
  {
    match step
    case Arrive(_, _) =>
    case Abort(p) =>
      if p in w.procs {
        RollbackKeepsInv(w, p);
      }
    case Move(p, now) =>
      if p in w.procs {
        match w.procs[p].request
        case Create(_, _, _, _) => CreateKeepsInv(w, p);
        case Accept(_, _, _, _) => AcceptKeepsInv(w, p, now);
        case Revoke(_) => RevokeKeepsInv(w, p);
        case Resume(_, _) => ResumeKeepsInv(w, p, now);
      }
  }

  lemma {:induction false} RunKeepsInv(w: World, steps: seq<Step>)
    requires Inv(w)
    ensures Inv(Run(w, steps))
  {
    if steps != [] {
      RunKeepsInv(w, steps[..|steps| - 1]);
      NextKeepsInv(Run(w, steps[..|steps| - 1]), steps[|steps| - 1]);
    }
  }

  /** In every interleaving, the committed sessions of an invite number exactly its use count, and
      that never exceeds the uses the invite allows. */
  lemma SessionsMatchUses(steps: seq<Step>, i: Id)
    ensures var w := Run(EMPTY, steps);
            i in w.db.invites ==>
              && |SessionsOf(w.db, i)| == w.db.invites[i].useCount
              && (w.db.invites[i].maxUses >= 0 ==> w.db.invites[i].useCount <= w.db.invites[i].maxUses)
              && (w.db.invites[i].maxUses < 0 ==> w.db.invites[i].useCount == 0)
  {
    RunKeepsInv(EMPTY, steps);
  }

  // ----- a committed revoke is final -----

  ghost predicate Revoked(w: World, i: Id) {
    i in w.db.invites && w.db.invites[i].revoked
  }

  /** i's row and its sessions, but for the sessions' idle windows, are the same in both. */
  ghost predicate SameRedemptions(w: World, v: World, i: Id) {
    && i in w.db.invites && i in v.db.invites && v.db.invites[i] == w.db.invites[i]
    && SessionsOf(v.db, i) == SessionsOf(w.db, i)
  }

  /** A commit by anyone leaves a revoked invite and its sessions as they are. */
  lemma CommitSparesRevoked(db: Db, view: Db, proc: Proc, i: Id)
    requires proc.pc.Written? && ViewOf(db, view, proc) && i in db.invites && db.invites[i].revoked
    ensures i in view.invites && view.invites[i] == db.invites[i] && SessionsOf(view, i) == SessionsOf(db, i)
  {
    match proc.request
    case Create(_, _, _, _) => SameSessions(db, view);
    case Accept(j, _, s, _) =>
      SameSessions(db, WithUse(db, j));
      assert j != i;
      assert SessionsOf(view, i) == SessionsOf(WithUse(db, j), i);
    case Revoke(_) => SameSessions(db, view);
    case Resume(_, _) => SameSessions(db, view);
  }

  /** Only a commit changes what is committed. */
  lemma OnlyCommitsWrite(w: World, step: Step)
    requires Inv(w)
    ensures Next(w, step).db == w.db ||
            (step.Move? && w.lock == Some(step.who) && w.procs[step.who].pc.Written? && Next(w, step).db == w.view)
  {
  }

  /** Once a revoke is committed, no slot of the invite is reserved and no session added, whatever
      was in flight: its use count and its sessions stay what they are in every later state. */
  lemma {:induction false} RevokeFreezesInvite(w: World, steps: seq<Step>, i: Id)
    requires Inv(w) && Revoked(w, i)
    ensures SameRedemptions(w, Run(w, steps), i) && Inv(Run(w, steps))
  {
    if steps != [] {
      var init, last := steps[..|steps| - 1], steps[|steps| - 1];
      RevokeFreezesInvite(w, init, i);
      var v := Run(w, init);
      NextKeepsInv(v, last);
      OnlyCommitsWrite(v, last);
      if Next(v, last).db != v.db {
        CommitSparesRevoked(v.db, v.view, v.procs[last.who], i);
      }
    }
  }

  /** p resumes a session of invite i and has not read the invite yet, or has been turned away. */
  ghost predicate NotPastInvite(w: World, p: Id, i: Id) {
    && p in w.procs && w.procs[p].request.Resume?
    && (w.procs[p].request.sessionId in w.db.sessions ==> w.db.sessions[w.procs[p].request.sessionId].inviteId == i)
    && (w.procs[p].pc.Start? || w.procs[p].pc == SawSession(i) || w.procs[p].pc.Failed?)
  }

  /** The invite of a session never changes, and no session of a revoked invite appears. */
  lemma SessionStays(w: World, step: Step, s: Id, i: Id)
    requires Inv(w) && s in w.db.sessions && w.db.sessions[s].inviteId == i
    ensures s in Next(w, step).db.sessions && Next(w, step).db.sessions[s].inviteId == i
  {
    OnlyCommitsWrite(w, step);
  }

  lemma ResumerMoves(w: World, p: Id, now: int, i: Id)
    requires Inv(w) && Revoked(w, i) && NotPastInvite(w, p, i) && w.procs[p].request.sessionId in w.db.sessions
    ensures NotPastInvite(Next(w, Move(p, now)), p, i) && Next(w, Move(p, now)).procs[p].request == w.procs[p].request
  {
  }

  lemma OthersMove(w: World, q: Id, now: int, p: Id)
    requires p in w.procs && q != p
    ensures p in Next(w, Move(q, now)).procs && Next(w, Move(q, now)).procs[p] == w.procs[p]
  {
  }

  lemma ResumerStays(w: World, step: Step, p: Id, i: Id)
    requires Inv(w) && NotPastInvite(w, p, i) && w.procs[p].request.sessionId in w.db.sessions && !step.Move?
    ensures NotPastInvite(Next(w, step), p, i) && Next(w, step).procs[p].request == w.procs[p].request
  {
    match step
    case Arrive(_, _) =>
    case Abort(_) =>
  }

  lemma ResumeStepStays(w: World, step: Step, p: Id, i: Id)
    requires Inv(w) && Revoked(w, i) && NotPastInvite(w, p, i)
    requires w.procs[p].request.sessionId in w.db.sessions
    ensures NotPastInvite(Next(w, step), p, i) && Next(w, step).procs[p].request == w.procs[p].request
    ensures w.procs[p].request.sessionId in Next(w, step).db.sessions
  {
    SessionStays(w, step, w.procs[p].request.sessionId, i);
    if !step.Move? {
      ResumerStays(w, step, p, i);
    } else if step.who == p {
      ResumerMoves(w, p, step.now, i);
    } else {
      OthersMove(w, step.who, step.now, p);
    }
  }

  /** No resume that reads the invite after a committed revoke succeeds: a request that has not
      read it by then is at its start, between the two reads, or refused, in every later state. */
  lemma {:induction false} RevokeStopsResume(w: World, steps: seq<Step>, p: Id, i: Id)
    requires Inv(w) && Revoked(w, i) && NotPastInvite(w, p, i)
    requires w.procs[p].request.sessionId in w.db.sessions
    ensures NotPastInvite(Run(w, steps), p, i) && !Run(w, steps).procs[p].pc.Done?
    ensures Run(w, steps).procs[p].request == w.procs[p].request
    ensures w.procs[p].request.sessionId in Run(w, steps).db.sessions
  {
    if steps != [] {
      var init := steps[..|steps| - 1];
      RevokeStopsResume(w, init, p, i);
      RevokeFreezesInvite(w, init, i);
      ResumeStepStays(Run(w, init), steps[|steps| - 1], p, i);
    }
  }

  // ----- who may redeem -----

  const EMPTY := World(Db(map[], map[]), None, Db(map[], map[]), map[])

  /** At step j the accept p passed the compare-and-swap: nobody held the lock, and the committed invite was not revoked,
      not expired and below its limit, whatever earlier checks had seen. */
  ghost predicate ReservedAt(steps: seq<Step>, j: nat, p: Id) {
    j < |steps| && steps[j].Move? && steps[j].who == p &&
    var at := Run(EMPTY, steps[..j]);
    && p in at.procs && at.procs[p].request.Accept? && at.procs[p].pc.Checked? && at.lock.None?
    && Redeemable(at.db, at.procs[p].request.inviteId, steps[j].now)
  }

  /** An accept that has reserved, written or committed. */
  ghost predicate PastSwap(w: World, p: Id) {
    p in w.procs && w.procs[p].request.Accept? && (w.procs[p].pc.Reserved? || w.procs[p].pc.Written? || w.procs[p].pc.Done?)
  }

  lemma OnlyTheSwapPasses(w: World, step: Step, p: Id)
    requires PastSwap(Next(w, step), p) && !PastSwap(w, p)
    ensures step.Move? && step.who == p && p in w.procs && w.procs[p].request.Accept? && w.procs[p].pc.Checked? && w.lock.None?
    ensures Redeemable(w.db, w.procs[p].request.inviteId, step.now)
  {
  }

  /** Over every run, an accept that got a slot took it at a moment when the committed invite was live. */
  lemma {:induction false} ReservingNeedsLiveInvite(steps: seq<Step>, p: Id)
    requires PastSwap(Run(EMPTY, steps), p)
    ensures exists j: nat :: ReservedAt(steps, j, p)
  {
    if steps != [] {
      var n := |steps| - 1;
      var init := steps[..n];
      if PastSwap(Run(EMPTY, init), p) {
        ReservingNeedsLiveInvite(init, p);
        var j: nat :| ReservedAt(init, j, p);
        assert init[..j] == steps[..j];
        assert ReservedAt(steps, j, p);
      } else {
        OnlyTheSwapPasses(Run(EMPTY, init), steps[n], p);
        assert ReservedAt(steps, n, p);
      }
    }
  }

  /** The only way for a slot to be used up: an accept commits, and with it exactly one session. */
  lemma UseMeansSession(w: World, step: Step, i: Id)
    requires Inv(w) && i in w.db.invites
    ensures i in Next(w, step).db.invites
    ensures Next(w, step).db.invites[i].useCount != w.db.invites[i].useCount ==>
              && step.Move? && step.who in w.procs && w.procs[step.who].request.Accept?
              && w.procs[step.who].request.inviteId == i && Next(w, step).procs[step.who].pc.Done?
              && SessionsOf(Next(w, step).db, i) == SessionsOf(w.db, i) + {w.procs[step.who].request.newSessionId}
              && w.procs[step.who].request.newSessionId !in w.db.sessions
  {
    OnlyCommitsWrite(w, step);
    if Next(w, step).db != w.db {
      var proc := w.procs[step.who];
      if proc.request.Accept? && proc.request.inviteId == i {
        var s := proc.request.newSessionId;
        assert SessionsOf(w.view, i) == SessionsOf(w.db, i) + {s};
      }
    }
  }
}
