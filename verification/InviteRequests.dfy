/** What the invite requests of server/src/rivulets/api/invites.py ask for and do: the secrets they must bring, over every
    run, and what each of them does when nobody is in its way. */
module InviteRequests {
  import opened Prelude
  import opened Invites

  // ----- secrets -----

  /** Secrets, and what else a row says when it is inserted, never change. */
  lemma RowsKeepTheirSecrets(w: World, step: Step)
    requires Inv(w)
    ensures forall i :: i in w.db.invites ==> i in Next(w, step).db.invites && SameOffer(w.db.invites[i], Next(w, step).db.invites[i])
    ensures forall s :: s in w.db.sessions ==> s in Next(w, step).db.sessions && SameSession(w.db.sessions[s], Next(w, step).db.sessions[s])
  {
    OnlyCommitsWrite(w, step);
    if Next(w, step).db != w.db {
      CommitKeepsRows(w.db, w.view, w.procs[step.who]);
    }
  }

  ghost predicate SameOffer(a: Invite, b: Invite) {
    b.secret == a.secret && b.maxUses == a.maxUses && b.expiresAt == a.expiresAt && (a.revoked ==> b.revoked)
  }

  ghost predicate SameSession(a: InviteSession, b: InviteSession) {
    b.secret == a.secret && b.inviteId == a.inviteId
  }

  lemma CommitKeepsRows(db: Db, view: Db, proc: Proc)
    requires proc.pc.Written? && ViewOf(db, view, proc)
    ensures forall i :: i in db.invites ==> i in view.invites && SameOffer(db.invites[i], view.invites[i])
    ensures forall s :: s in db.sessions ==> s in view.sessions && SameSession(db.sessions[s], view.sessions[s])
  {
  }

  /** An accept that has passed its checks brought the secret of its invite. */
  ghost predicate InviteSecretKnown(w: World, p: Id) {
    p in w.procs && w.procs[p].request.Accept?
    && (w.procs[p].pc.Checked? || w.procs[p].pc.Reserved? || w.procs[p].pc.Refused? || w.procs[p].pc.Written? || w.procs[p].pc.Done?) ==>
      var r := w.procs[p].request;
      r.inviteId in w.db.invites && w.db.invites[r.inviteId].secret == r.secret
  }

  /** A resume that has read its session brought the secret of the session. */
  ghost predicate SessionSecretKnown(w: World, p: Id) {
    p in w.procs && w.procs[p].request.Resume?
    && (w.procs[p].pc.SawSession? || w.procs[p].pc.SawInvite? || w.procs[p].pc.Written? || w.procs[p].pc.Done?) ==>
      var r := w.procs[p].request;
      r.sessionId in w.db.sessions && w.db.sessions[r.sessionId].secret == r.resumeWith
  }

  lemma AccepterKnows(w: World, p: Id, now: int)
    requires Inv(w) && p in w.procs && w.procs[p].request.Accept? && InviteSecretKnown(w, p)
    ensures InviteSecretKnown(Next(w, Move(p, now)), p)
  {
    RowsKeepTheirSecrets(w, Move(p, now));
    match w.procs[p].pc
    case Start =>
    case _ =>
  }

  lemma ResumerKnows(w: World, p: Id, now: int)
    requires Inv(w) && p in w.procs && w.procs[p].request.Resume? && SessionSecretKnown(w, p)
    ensures SessionSecretKnown(Next(w, Move(p, now)), p)
  {
    RowsKeepTheirSecrets(w, Move(p, now));
    match w.procs[p].pc
    case Start =>
    case _ =>
  }

  /** What the other requests do, and an abort, leaves the request and its state alone, or ends it. */
  lemma OthersLeave(w: World, step: Step, p: Id)
    requires p in w.procs && !(step.Move? && step.who == p)
    ensures p in Next(w, step).procs && Next(w, step).procs[p].request == w.procs[p].request
    ensures Next(w, step).procs[p].pc == w.procs[p].pc || Next(w, step).procs[p].pc.Failed?
  {
    if step.Move? {
      OthersMove(w, step.who, step.now, p);
    }
  }

  lemma ArrivalStarts(w: World, step: Step, p: Id)
    requires p !in w.procs && p in Next(w, step).procs
    ensures Next(w, step).procs[p].pc.Start?
  {
  }

  lemma StepKeepsSecrets(w: World, step: Step, p: Id)
    requires Inv(w) && InviteSecretKnown(w, p) && SessionSecretKnown(w, p)
    ensures InviteSecretKnown(Next(w, step), p) && SessionSecretKnown(Next(w, step), p)
  {
    RowsKeepTheirSecrets(w, step);
    if p !in w.procs {
      if p in Next(w, step).procs {
        ArrivalStarts(w, step, p);
      }
    } else if step.Move? && step.who == p {
      MoverKeepsRequest(w, p, step.now);
      if w.procs[p].request.Accept? {
        AccepterKnows(w, p, step.now);
      }
      if w.procs[p].request.Resume? {
        ResumerKnows(w, p, step.now);
      }
    } else {
      OthersLeave(w, step, p);
    }
  }

  lemma MoverKeepsRequest(w: World, p: Id, now: int)
    requires p in w.procs
    ensures p in Next(w, Move(p, now)).procs && Next(w, Move(p, now)).procs[p].request == w.procs[p].request
  {
    match w.procs[p].request
    case Create(_, _, _, _) =>
    case Accept(_, _, _, _) =>
    case Revoke(_) =>
    case Resume(_, _) =>
  }

  lemma {:induction false} RunKeepsSecrets(steps: seq<Step>, p: Id)
    ensures InviteSecretKnown(Run(EMPTY, steps), p) && SessionSecretKnown(Run(EMPTY, steps), p)
  {
    if steps != [] {
      var init := steps[..|steps| - 1];
      RunKeepsSecrets(init, p);
      RunKeepsInv(EMPTY, init);
      StepKeepsSecrets(Run(EMPTY, init), steps[|steps| - 1], p);
    }
  }

  /** Over every run: whoever holds or has used a slot of an invite brought the secret of that invite. */
  lemma SlotNeedsSecret(steps: seq<Step>, p: Id)
    requires PastSwap(Run(EMPTY, steps), p)
    ensures var w := Run(EMPTY, steps);
            var r := w.procs[p].request;
            r.inviteId in w.db.invites && w.db.invites[r.inviteId].secret == r.secret
  {
    RunKeepsSecrets(steps, p);
  }

  /** Over every run: whoever has resumed a session brought the secret of that session. */
  lemma ResumeNeedsSecret(steps: seq<Step>, p: Id)
    requires var w := Run(EMPTY, steps); p in w.procs && w.procs[p].request.Resume? && w.procs[p].pc.Done?
    ensures var w := Run(EMPTY, steps);
            var r := w.procs[p].request;
            r.sessionId in w.db.sessions && w.db.sessions[r.sessionId].secret == r.resumeWith
  {
    RunKeepsSecrets(steps, p);
  }

  // ----- where rows come from -----

  /** p is the accept that has committed session s. */
  ghost predicate Minted(w: World, s: Id, p: Id) {
    && s in w.db.sessions && p in w.procs && w.procs[p].pc.Done? && w.procs[p].request.Accept?
    && w.procs[p].request.newSessionId == s && w.procs[p].request.resumeSecret == w.db.sessions[s].secret
    && w.procs[p].request.inviteId == w.db.sessions[s].inviteId
  }

  /** p is the request of the owner that has committed invite i. */
  ghost predicate Issued(w: World, i: Id, p: Id) {
    && i in w.db.invites && p in w.procs && w.procs[p].pc.Done? && w.procs[p].request.Create?
    && w.procs[p].request.newInviteId == i && w.procs[p].request.newSecret == w.db.invites[i].secret
    && w.procs[p].request.maxUses == w.db.invites[i].maxUses && w.procs[p].request.inviteExpiresAt == w.db.invites[i].expiresAt
  }

  ghost predicate Sourced(w: World) {
    && (forall s :: s in w.db.sessions ==> exists p :: Minted(w, s, p))
    && (forall i :: i in w.db.invites ==> exists p :: Issued(w, i, p))
  }

  lemma DoneStays(w: World, step: Step, p: Id)
    requires p in w.procs && w.procs[p].pc.Done?
    ensures p in Next(w, step).procs && Next(w, step).procs[p] == w.procs[p]
  {
    if step.Move? {
      match w.procs[p].request
      case Create(_, _, _, _) =>
      case Accept(_, _, _, _) =>
      case Revoke(_) =>
      case Resume(_, _) =>
      if step.who != p {
        OthersMove(w, step.who, step.now, p);
      }
    }
  }

  lemma CommittedRows(w: World, step: Step)
    requires Inv(w) && Next(w, step).db != w.db
    ensures step.Move? && step.who in w.procs && w.procs[step.who].pc.Written?
    ensures Next(w, step).procs[step.who] == Proc(w.procs[step.who].request, Done)
    ensures forall s :: s in Next(w, step).db.sessions && s !in w.db.sessions ==> Minted(Next(w, step), s, step.who)
    ensures forall i :: i in Next(w, step).db.invites && i !in w.db.invites ==> Issued(Next(w, step), i, step.who)
  {
    OnlyCommitsWrite(w, step);
  }

  lemma StepKeepsSourced(w: World, step: Step)
    requires Inv(w) && Sourced(w)
    ensures Sourced(Next(w, step))
  {
    var v := Next(w, step);
    RowsKeepTheirSecrets(w, step);
    if v.db != w.db {
      CommittedRows(w, step);
    }
    forall s | s in v.db.sessions ensures exists p :: Minted(v, s, p) {
      if s in w.db.sessions {
        var p :| Minted(w, s, p);
        DoneStays(w, step, p);
        assert Minted(v, s, p);
      }
    }
    forall i | i in v.db.invites ensures exists p :: Issued(v, i, p) {
      if i in w.db.invites {
        var p :| Issued(w, i, p);
        DoneStays(w, step, p);
        assert Issued(v, i, p);
      }
    }
  }

  lemma {:induction false} RunKeepsSourced(steps: seq<Step>)
    ensures Sourced(Run(EMPTY, steps))
  {
    if steps != [] {
      var init := steps[..|steps| - 1];
      RunKeepsSourced(init);
      RunKeepsInv(EMPTY, init);
      StepKeepsSourced(Run(EMPTY, init), steps[|steps| - 1]);
    }
  }

  /** Over every run: a session carries the resume secret of the accept that committed it, and belongs to the invite that
      accept redeemed; an invite carries what the request that created it asked for. */
  lemma RowsComeFromRequests(steps: seq<Step>)
    ensures var w := Run(EMPTY, steps);
            && (forall s :: s in w.db.sessions ==> exists p :: Minted(w, s, p))
            && (forall i :: i in w.db.invites ==> exists p :: Issued(w, i, p))
  {
    RunKeepsSourced(steps);
  }

  // ----- a revoke that is through -----

  ghost predicate RevokesHold(w: World) {
    forall p :: p in w.procs && w.procs[p].request.Revoke? && w.procs[p].pc.Done? ==> Revoked(w, w.procs[p].request.revokedId)
  }

  lemma StepKeepsRevokes(w: World, step: Step)
    requires Inv(w) && RevokesHold(w)
    ensures RevokesHold(Next(w, step))
  {
    var v := Next(w, step);
    RowsKeepTheirSecrets(w, step);
    forall p | p in v.procs && v.procs[p].request.Revoke? && v.procs[p].pc.Done? ensures Revoked(v, v.procs[p].request.revokedId) {
      if p !in w.procs {
        ArrivalStarts(w, step, p);
      } else if step.Move? && step.who == p {
        MoverKeepsRequest(w, p, step.now);
      } else {
        OthersLeave(w, step, p);
      }
    }
  }

  /** Over every run: an invite is revoked once a revoke of it is done. */
  lemma {:induction false} RevokeTakesEffect(steps: seq<Step>)
    ensures RevokesHold(Run(EMPTY, steps))
  {
    if steps != [] {
      var init := steps[..|steps| - 1];
      RevokeTakesEffect(init);
      RunKeepsInv(EMPTY, init);
      StepKeepsRevokes(Run(EMPTY, init), steps[|steps| - 1]);
    }
  }

  // ----- what a resume must find -----

  /** At step j the resume p read its session, unexpired and with the secret it brought. */
  ghost predicate ReadSessionAt(steps: seq<Step>, j: nat, p: Id) {
    j < |steps| && steps[j].Move? && steps[j].who == p &&
    var at := Run(EMPTY, steps[..j]);
    p in at.procs && at.procs[p].request.Resume? &&
    var s := at.procs[p].request.sessionId;
    s in at.db.sessions && at.db.sessions[s].secret == at.procs[p].request.resumeWith && steps[j].now <= at.db.sessions[s].expiresAt
  }

  /** At step j it read the invite of that session, and the invite was not revoked. */
  ghost predicate ReadInviteAt(steps: seq<Step>, j: nat, p: Id) {
    j < |steps| && steps[j].Move? && steps[j].who == p &&
    var at := Run(EMPTY, steps[..j]);
    p in at.procs && at.procs[p].request.Resume? &&
    var s := at.procs[p].request.sessionId;
    s in at.db.sessions && at.db.sessions[s].inviteId in at.db.invites && !at.db.invites[at.db.sessions[s].inviteId].revoked
  }

  /** The resume stands past the read of its session, or of its invite. */
  ghost predicate PastSession(w: World, p: Id) {
    p in w.procs && w.procs[p].request.Resume? && (w.procs[p].pc.SawSession? || PastInvite(w, p))
  }

  ghost predicate PastInvite(w: World, p: Id) {
    p in w.procs && w.procs[p].request.Resume? && (w.procs[p].pc.SawInvite? || w.procs[p].pc.Written? || w.procs[p].pc.Done?)
  }

  /** What a resume has noted between its reads is the invite of its session. */
  ghost predicate NotesInvite(w: World, p: Id) {
    p in w.procs && w.procs[p].request.Resume? && w.procs[p].pc.SawSession? ==>
      var s := w.procs[p].request.sessionId;
      s in w.db.sessions && w.db.sessions[s].inviteId == w.procs[p].pc.inviteOf
  }

  lemma NoterMoves(w: World, p: Id, now: int)
    requires Inv(w) && p in w.procs && w.procs[p].request.Resume? && NotesInvite(w, p)
    ensures NotesInvite(Next(w, Move(p, now)), p)
  {
    RowsKeepTheirSecrets(w, Move(p, now));
    match w.procs[p].pc
    case Start =>
    case _ =>
  }

  lemma StepNotes(w: World, step: Step, p: Id)
    requires Inv(w) && NotesInvite(w, p)
    ensures NotesInvite(Next(w, step), p)
  {
    RowsKeepTheirSecrets(w, step);
    if p in w.procs {
      if step.Move? && step.who == p {
        MoverKeepsRequest(w, p, step.now);
        if w.procs[p].request.Resume? {
          NoterMoves(w, p, step.now);
        }
      } else {
        OthersLeave(w, step, p);
      }
    } else if p in Next(w, step).procs {
      ArrivalStarts(w, step, p);
    }
  }

  lemma {:induction false} RunNotes(steps: seq<Step>, p: Id)
    ensures NotesInvite(Run(EMPTY, steps), p)
  {
    if steps != [] {
      var init := steps[..|steps| - 1];
      RunNotes(init, p);
      RunKeepsInv(EMPTY, init);
      StepNotes(Run(EMPTY, init), steps[|steps| - 1], p);
    }
  }

  lemma OnlyReadsPass(w: World, step: Step, p: Id)
    requires NotesInvite(w, p)
    ensures PastSession(Next(w, step), p) && !PastSession(w, p) ==>
              && step.Move? && step.who == p && p in w.procs && w.procs[p].request.Resume?
              && var s := w.procs[p].request.sessionId;
                 s in w.db.sessions && w.db.sessions[s].secret == w.procs[p].request.resumeWith && step.now <= w.db.sessions[s].expiresAt
    ensures PastInvite(Next(w, step), p) && !PastInvite(w, p) ==>
              && step.Move? && step.who == p && p in w.procs && w.procs[p].request.Resume?
              && var s := w.procs[p].request.sessionId;
                 s in w.db.sessions && w.db.sessions[s].inviteId in w.db.invites && !w.db.invites[w.db.sessions[s].inviteId].revoked
  {
    if p in w.procs {
      if step.Move? && step.who == p {
        MoverKeepsRequest(w, p, step.now);
      } else {
        OthersLeave(w, step, p);
      }
    }
  }

  /** Over every run: a resume that is through read its session while it was unexpired, with the right secret, and its
      invite while it was not revoked. */
  lemma {:induction false} ResumeNeedsLiveSession(steps: seq<Step>, p: Id)
    ensures PastSession(Run(EMPTY, steps), p) ==> exists j: nat :: ReadSessionAt(steps, j, p)
    ensures PastInvite(Run(EMPTY, steps), p) ==> exists j: nat :: ReadInviteAt(steps, j, p)
  {
    if steps != [] {
      var n := |steps| - 1;
      var init := steps[..n];
      ResumeNeedsLiveSession(init, p);
      RunNotes(init, p);
      OnlyReadsPass(Run(EMPTY, init), steps[n], p);
      forall j: nat | j < n ensures init[..j] == steps[..j] && init[j] == steps[j] {
      }
      if PastSession(Run(EMPTY, init), p) {
        var j: nat :| ReadSessionAt(init, j, p);
        assert ReadSessionAt(steps, j, p);
      } else if PastSession(Run(EMPTY, steps), p) {
        assert ReadSessionAt(steps, n, p);
      }
      if PastInvite(Run(EMPTY, init), p) {
        var j: nat :| ReadInviteAt(init, j, p);
        assert ReadInviteAt(steps, j, p);
      } else if PastInvite(Run(EMPTY, steps), p) {
        assert ReadInviteAt(steps, n, p);
      }
    }
  }

  // ----- a request that nobody disturbs -----

  ghost predicate Undisturbed(w: World, p: Id) {
    p in w.procs && w.procs[p].pc.Start? && w.lock.None?
  }

  /** From any state in which nobody writes, an accept alone succeeds exactly when it brings the secret of an invite that is
      not revoked, not expired and not used up, and its session id is new; then one use and one session are added, and
      nothing else changes. Otherwise nothing changes at all. */
  lemma AcceptAlone(w: World, p: Id, t0: int, t1: int, t2: int, t3: int)
    requires Undisturbed(w, p) && w.procs[p].request.Accept?
    ensures var v := Next(Next(Next(Next(w, Move(p, t0)), Move(p, t1)), Move(p, t2)), Move(p, t3));
            var r := w.procs[p].request;
            if && r.inviteId in w.db.invites && w.db.invites[r.inviteId].secret == r.secret && !w.db.invites[r.inviteId].revoked
               && t0 <= w.db.invites[r.inviteId].expiresAt && t1 < w.db.invites[r.inviteId].expiresAt
               && w.db.invites[r.inviteId].useCount < w.db.invites[r.inviteId].maxUses && r.newSessionId !in w.db.sessions
            then
              var row := w.db.invites[r.inviteId];
              && v.procs[p].pc == Done && v.lock == None
              && v.db == Db(w.db.invites[r.inviteId := Invite(row.secret, row.maxUses, row.useCount + 1, false, row.expiresAt)],
                            w.db.sessions[r.newSessionId := InviteSession(r.resumeSecret, r.inviteId, t2 + 30 * 24 * 3600)])
            else v.procs[p].pc == Failed && v.lock == None && v.db == w.db
  {
    var w1 := Next(w, Move(p, t0));
    var w2 := Next(w1, Move(p, t1));
    var w3 := Next(w2, Move(p, t2));
    assert w1.procs[p].request == w.procs[p].request && w2.procs[p].request == w.procs[p].request
           && w3.procs[p].request == w.procs[p].request;
    if w1.procs[p].pc.Checked? {
      assert w2.procs[p].pc.Reserved? || w2.procs[p].pc.Refused?;
    } else {
      assert w1.procs[p].pc.Failed?;
    }
  }

  /** A resume alone succeeds exactly when it brings the secret of a session that is not expired and whose invite is not
      revoked; then the session gets thirty days from now, and nothing else changes. */
  lemma ResumeAlone(w: World, p: Id, t0: int, t1: int, t2: int, t3: int)
    requires Undisturbed(w, p) && w.procs[p].request.Resume?
    ensures var v := Next(Next(Next(Next(w, Move(p, t0)), Move(p, t1)), Move(p, t2)), Move(p, t3));
            var s := w.procs[p].request.sessionId;
            if && s in w.db.sessions && w.db.sessions[s].secret == w.procs[p].request.resumeWith && t0 <= w.db.sessions[s].expiresAt
               && w.db.sessions[s].inviteId in w.db.invites && !w.db.invites[w.db.sessions[s].inviteId].revoked
            then
              && v.procs[p].pc == Done && v.lock == None && v.db.invites == w.db.invites
              && v.db.sessions == w.db.sessions[s := InviteSession(w.db.sessions[s].secret, w.db.sessions[s].inviteId, t2 + 30 * 24 * 3600)]
            else v.procs[p].pc == Failed && v.lock == None && v.db == w.db
  {
    var w1 := Next(w, Move(p, t0));
    var w2 := Next(w1, Move(p, t1));
    var w3 := Next(w2, Move(p, t2));
    assert w1.procs[p].request == w.procs[p].request && w2.procs[p].request == w.procs[p].request
           && w3.procs[p].request == w.procs[p].request;
    if w1.procs[p].pc.SawSession? {
      assert w2.procs[p].pc.SawInvite? || w2.procs[p].pc.Failed?;
    } else {
      assert w1.procs[p].pc.Failed?;
    }
  }

  /** A revoke alone revokes the invite if there is one, and changes nothing else. */
  lemma RevokeAlone(w: World, p: Id, t0: int, t1: int, t2: int)
    requires Undisturbed(w, p) && w.procs[p].request.Revoke?
    ensures var v := Next(Next(Next(w, Move(p, t0)), Move(p, t1)), Move(p, t2));
            var i := w.procs[p].request.revokedId;
            if i in w.db.invites then
              var row := w.db.invites[i];
              && v.procs[p].pc == Done && v.lock == None && v.db.sessions == w.db.sessions
              && v.db.invites == w.db.invites[i := Invite(row.secret, row.maxUses, row.useCount, true, row.expiresAt)]
            else v.procs[p].pc == Failed && v.lock == None && v.db == w.db
  {
    var w1 := Next(w, Move(p, t0));
    var w2 := Next(w1, Move(p, t1));
    assert w1.procs[p].request == w.procs[p].request && w2.procs[p].request == w.procs[p].request;
  }

  /** A new invite is unused and not revoked. */
  lemma CreateAlone(w: World, p: Id, t0: int, t1: int)
    requires Undisturbed(w, p) && w.procs[p].request.Create?
    ensures var v := Next(Next(w, Move(p, t0)), Move(p, t1));
            var r := w.procs[p].request;
            if r.newInviteId !in w.db.invites then
              && v.procs[p].pc == Done && v.lock == None && v.db.sessions == w.db.sessions
              && v.db.invites == w.db.invites[r.newInviteId := Invite(r.newSecret, r.maxUses, 0, false, r.inviteExpiresAt)]
            else v.procs[p].pc == Failed && v.lock == None && v.db == w.db
  {
    var w1 := Next(w, Move(p, t0));
    assert w1.procs[p].request == w.procs[p].request;
  }
}
