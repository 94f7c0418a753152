/** Why a login of server/src/rivulets/api/auth.py:110-240 is turned away, over every run, and that one which nobody
    disturbs gets in when it should. */
module LoginOutcomes {
  import opened Prelude
  import opened Login

  // ----- why a login is refused -----

  /** The login brings no token that this deployment asks for. */
  ghost predicate LacksToken(c: Config, r: LoginRequest) {
    c.requireToken && (c.configuredToken == "" || r.bootstrapToken != c.configuredToken)
  }

  /** At step j the login p found no workspace row, and was to create one. */
  ghost predicate FoundNoneAt(steps: seq<Step>, j: nat, p: Pid, c: Config) {
    && j < |steps| && steps[j] == Move(p)
    && p in Run(FRESH_INSTALL, steps[..j], c).procs && Run(FRESH_INSTALL, steps[..j], c).rows == []
  }

  /** Its key does not verify against the one row. */
  ghost predicate WrongKey(w: World, p: Pid, c: Config) {
    p in w.procs && |w.rows| == 1 && !c.verify(w.procs[p].request.key, w.rows[0].keyHash)
  }

  ghost predicate Turned(w: World, p: Pid) {
    p in w.procs && w.procs[p].pc.Refused?
  }

  lemma WrongKeyStays(w: World, step: Step, p: Pid, c: Config)
    requires LockedOut(w) && WrongKey(w, p, c)
    ensures WrongKey(Next(w, step, c), p, c)
  {
    OthersStand(w, step, c);
    RowsGrow(w, step, c);
    StepLocksOut(w, step, c);
    var v := Next(w, step, c);
    assert w.rows[0] in v.rows;
  }

  /** A move that turns a login away does so for one of the two reasons. */
  lemma TurnedAwayFor(w: World, p: Pid, c: Config)
    requires LockedOut(w) && OwnRow(w, c) && p in w.procs && !Turned(w, p) && Turned(LoginStep(w, p, c), p)
    ensures WrongKey(LoginStep(w, p, c), p, c) || (LacksToken(c, w.procs[p].request) && w.rows == [])
  {
    MovesOnlyItself(w, p, c);
    if w.procs[p].pc.Verifying? {
      var row := w.procs[p].pc.row;
      assert w.procs[p].pc == Verifying(row);
      assert row in w.rows && w.rows[0] == row;
    }
  }

  /** Over every run: a login that is turned away, and was not given up by its client, brought a key that does not verify
      against the one workspace row, or came when there was no row without the token that creating one takes. */
  lemma {:induction false} RefusedOnlyWhen(steps: seq<Step>, c: Config, p: Pid)
    requires Turned(Run(FRESH_INSTALL, steps, c), p) && forall i :: 0 <= i < |steps| ==> steps[i] != Abort(p)
    ensures var w := Run(FRESH_INSTALL, steps, c);
            || (|w.rows| == 1 && !c.verify(w.procs[p].request.key, w.rows[0].keyHash))
            || (LacksToken(c, w.procs[p].request) && exists j: nat :: FoundNoneAt(steps, j, p, c))
  {
    if steps != [] {
      var n := |steps| - 1;
      var init := steps[..n];
      var w := Run(FRESH_INSTALL, init, c);
      RunKeepsInv(init, c);
      OthersStand(w, steps[n], c);
      if Turned(w, p) {
        RefusedOnlyWhen(init, c, p);
        if WrongKey(w, p, c) {
          WrongKeyStays(w, steps[n], p, c);
        } else {
          var j: nat :| FoundNoneAt(init, j, p, c);
          assert init[..j] == steps[..j];
          assert FoundNoneAt(steps, j, p, c);
        }
      } else {
        assert steps[n] == Move(p) && p in w.procs;
        TurnedAwayFor(w, p, c);
        if !WrongKey(LoginStep(w, p, c), p, c) {
          assert FoundNoneAt(steps, n, p, c);
        }
      }
    }
  }

  // ----- a login that nobody disturbs -----

  /** n moves of p in a row. */
  function Moves(w: World, p: Pid, c: Config, n: nat): (v: World)
    ensures p in w.procs ==> p in v.procs
  {
    if n == 0 then w else Next(Moves(w, p, c, n - 1), Move(p), c)
  }

  lemma OneMove(w: World, p: Pid, c: Config, n: nat)
    requires p in w.procs
    ensures Moves(w, p, c, n + 1) == LoginStep(Moves(w, p, c, n), p, c)
  {
  }

  lemma {:induction false} MovesOn(w: World, q: Pid, c: Config, m: nat, n: nat)
    ensures Moves(w, q, c, m + n) == Moves(Moves(w, q, c, m), q, c, n)
  {
    if n > 0 {
      MovesOn(w, q, c, m, n - 1);
      assert Moves(w, q, c, m + n) == Next(Moves(w, q, c, m + (n - 1)), Move(q), c);
    }
  }

  ghost predicate Over(w: World, q: Pid) {
    q in w.procs && (w.procs[q].pc.GotToken? || w.procs[q].pc.Refused?)
  }

  lemma {:induction false} StaysOver(w: World, q: Pid, c: Config, n: nat)
    requires Over(w, q)
    ensures Moves(w, q, c, n) == w
  {
    if n > 0 {
      StaysOver(w, q, c, n - 1);
    }
  }

  /** A login that is over after m moves is over in the same way after more. */
  lemma OverByThen(w: World, q: Pid, c: Config, m: nat, n: nat)
    requires m <= n && Over(Moves(w, q, c, m), q)
    ensures Moves(w, q, c, n) == Moves(w, q, c, m)
  {
    var rest: nat := n - m;
    MovesOn(w, q, c, m, rest);
    StaysOver(Moves(w, q, c, m), q, c, rest);
  }

  /** Admitted, or turned away, by the row that is there; the row and the seedings stay. */
  ghost predicate TreatedByRow(w: World, v: World, q: Pid, c: Config)
    requires |w.rows| == 1 && q in w.procs
  {
    && q in v.procs && v.rows == w.rows && v.seedings == w.seedings
    && (if c.verify(w.procs[q].request.key, w.rows[0].keyHash)
        then v.procs[q].pc == GotToken && v.sessionKey == Some(w.procs[q].request.key)
        else v.procs[q].pc == Pc.Refused && v.sessionKey == w.sessionKey)
  }

  /** From any state that a run leads to: once there is a row, a login at its start gets its token in three moves of its
      own, and its keys the session, exactly when its key verifies against that row. */
  lemma ReturningLogin(steps: seq<Step>, c: Config, q: Pid, n: nat)
    requires var w := Run(FRESH_INSTALL, steps, c); w.rows != [] && q in w.procs && w.procs[q].pc.Start?
    requires n >= 3
    ensures |Run(FRESH_INSTALL, steps, c).rows| == 1
    ensures TreatedByRow(Run(FRESH_INSTALL, steps, c), Moves(Run(FRESH_INSTALL, steps, c), q, c, n), q, c)
  {
    RunKeepsInv(steps, c);
    var w := Run(FRESH_INSTALL, steps, c);
    Returns(w, q, c);
    OverByThen(w, q, c, 3, n);
  }

  lemma Returns(w: World, q: Pid, c: Config)
    requires |w.rows| == 1 && q in w.procs && w.procs[q].pc.Start?
    ensures TreatedByRow(w, Moves(w, q, c, 3), q, c)
  {
    OneMove(w, q, c, 0);
    OneMove(w, q, c, 1);
    OneMove(w, q, c, 2);
    assert Moves(w, q, c, 0) == w;
    assert Moves(w, q, c, 1).procs[q].pc == Verifying(w.rows[0]);
  }

  /** The late one: it saw no row, somebody else has created one meanwhile, and it takes the lock. It is treated like any
      returning login, and lets go of the lock. */
  lemma LateLogin(steps: seq<Step>, c: Config, q: Pid, n: nat)
    requires var w := Run(FRESH_INSTALL, steps, c); w.rows != [] && w.lock.None? && q in w.procs && w.procs[q].pc.SeesNone?
    requires n >= 4
    ensures |Run(FRESH_INSTALL, steps, c).rows| == 1
    ensures TreatedByRow(Run(FRESH_INSTALL, steps, c), Moves(Run(FRESH_INSTALL, steps, c), q, c, n), q, c)
    ensures Moves(Run(FRESH_INSTALL, steps, c), q, c, n).lock == None
  {
    RunKeepsInv(steps, c);
    var w := Run(FRESH_INSTALL, steps, c);
    ComesLate(w, q, c);
    OverByThen(w, q, c, 4, n);
  }

  lemma ComesLate(w: World, q: Pid, c: Config)
    requires |w.rows| == 1 && w.lock.None? && q in w.procs && w.procs[q].pc.SeesNone?
    ensures TreatedByRow(w, Moves(w, q, c, 4), q, c) && Moves(w, q, c, 4).lock == None
  {
    OneMove(w, q, c, 0);
    OneMove(w, q, c, 1);
    OneMove(w, q, c, 2);
    OneMove(w, q, c, 3);
    assert Moves(w, q, c, 0) == w;
    assert Moves(w, q, c, 1).procs[q].pc == Locked && Moves(w, q, c, 1).lock == Some(q);
    assert Moves(w, q, c, 2).procs[q].pc == Verifying(w.rows[0]) && Moves(w, q, c, 2).lock == Some(q);
  }

  /** The row is there with the hash of the key, the library seeded and the token given; or nothing has happened, and the
      login is turned away for want of the token that this takes. */
  ghost predicate CreatedRow(w: World, v: World, q: Pid, c: Config)
    requires q in w.procs
  {
    var r := w.procs[q].request;
    && q in v.procs && v.lock == None
    && (if c.requireToken && (c.configuredToken == "" || r.bootstrapToken != c.configuredToken)
        then v.procs[q].pc == Pc.Refused && v.rows == [] && v.seedings == w.seedings && v.sessionKey == w.sessionKey
        else v.procs[q].pc == GotToken && v.rows == [Row(q, c.hash(r.key))] && v.seedings == w.seedings + [q]
             && v.sessionKey == Some(r.key))
  }

  /** From any state without a row in which nobody writes: eight moves of its own bring a login at its start to its end. */
  lemma FirstLogin(w: World, q: Pid, c: Config, n: nat)
    requires w.rows == [] && w.lock.None? && q in w.procs && w.procs[q].pc.Start? && n >= 8
    ensures CreatedRow(w, Moves(w, q, c, n), q, c)
  {
    var m := FirstLoginEnds(w, q, c);
    OverByThen(w, q, c, m, n);
  }

  lemma FirstLoginEnds(w: World, q: Pid, c: Config) returns (m: nat)
    requires w.rows == [] && w.lock.None? && q in w.procs && w.procs[q].pc.Start?
    ensures m <= 8 && CreatedRow(w, Moves(w, q, c, m), q, c)
  {
    ToTheToken(w, q, c);
    m := 4;
    if !LacksToken(c, w.procs[q].request) {
      Creates(Moves(w, q, c, m), q, c);
      MovesOn(w, q, c, m, m);
      m := m + m;
    }
  }

  /** Two reads, with the lock between them, and the check of the token. */
  lemma ToTheToken(w: World, q: Pid, c: Config)
    requires w.rows == [] && w.lock.None? && q in w.procs && w.procs[q].pc.Start?
    ensures var v := Moves(w, q, c, 4);
            && v.rows == [] && v.seedings == w.seedings && v.sessionKey == w.sessionKey && v.procs[q].request == w.procs[q].request
            && (if LacksToken(c, w.procs[q].request) then v.procs[q].pc == Pc.Refused && v.lock == None
                else v.procs[q].pc == Inserted && v.pending == Some(Row(q, c.hash(w.procs[q].request.key))))
  {
    OneMove(w, q, c, 0);
    OneMove(w, q, c, 1);
    OneMove(w, q, c, 2);
    OneMove(w, q, c, 3);
    assert Moves(w, q, c, 0) == w;
    assert Moves(w, q, c, 1).procs[q].pc == SeesNone;
    assert Moves(w, q, c, 2).procs[q].pc == Locked && Moves(w, q, c, 2).lock == Some(q);
    assert Moves(w, q, c, 3).procs[q].pc == Creating && Moves(w, q, c, 3).lock == Some(q);
  }

  lemma Creates(w: World, q: Pid, c: Config)
    requires w.rows == [] && q in w.procs && w.procs[q].pc.Inserted?
    requires w.pending == Some(Row(q, c.hash(w.procs[q].request.key)))
    ensures var v := Moves(w, q, c, 4);
            && v.lock == None && v.procs[q].pc == GotToken && v.rows == [Row(q, c.hash(w.procs[q].request.key))]
            && v.seedings == w.seedings + [q] && v.sessionKey == Some(w.procs[q].request.key)
  {
    OneMove(w, q, c, 0);
    OneMove(w, q, c, 1);
    OneMove(w, q, c, 2);
    OneMove(w, q, c, 3);
    assert Moves(w, q, c, 0) == w;
    assert Moves(w, q, c, 1).procs[q].pc == Created && Moves(w, q, c, 1).lock == None;
    assert Moves(w, q, c, 2).procs[q].pc == Seeded;
    assert Moves(w, q, c, 3).procs[q].pc == Admitted;
  }
}
