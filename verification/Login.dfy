/** First-login bootstrap (server/src/rivulets/api/auth.py, with begin_immediate of
    server/src/rivulets/db/session.py): any number of logins interleave step by step, check for a workspace
    row, take the write lock when there seems to be none, and check again before they insert. */
module Login {
  import opened Prelude

  type Pid = string
  type Key = string

  /** A workspace row keeps the hash of the key that created it. */
  datatype Row = Row(id: Pid, keyHash: string)

  /** The hash functions of the key module, and the operator's bootstrap-token settings. */
  datatype Config = Config(hash: Key -> string, verify: (Key, string) -> bool,
                           requireToken: bool, configuredToken: string)

  datatype LoginRequest = LoginRequest(key: Key, bootstrapToken: string)

  datatype Pc =
    | Start
    | SeesNone       // the first read found no row; the request is about to take the lock
    | Locked         // it holds the lock, before the second read
    | Creating       // it holds the lock, and the second read found no row
    | Inserted       // its row is written, not committed
    | Created        // its row is committed; the starter library comes next
    | Seeded
    | Verifying(row: Row)
    | Admitted       // the session keys of its key are next
    | GotToken
    | Refused

  datatype Proc = Proc(request: LoginRequest, pc: Pc)

  /** rows: the committed workspace rows, in the order of their commits (no uniqueness is assumed);
      seedings: the logins that started to seed the starter library; sessionKey: the key whose derived keys
      the process holds. */
  datatype World = World(rows: seq<Row>, lock: Option<Pid>, pending: Option<Row>, seedings: seq<Pid>,
                         sessionKey: Option<Key>, procs: map<Pid, Proc>)

  function MoveTo(w: World, p: Pid, pc: Pc): World
    requires p in w.procs
  {
    w.(procs := w.procs[p := w.procs[p].(pc := pc)])
  }

  function Release(w: World, p: Pid): World {
    if w.lock == Some(p) then w.(lock := None, pending := None) else w
  }

  function Refuse(w: World, p: Pid): World
    requires p in w.procs
  {
    MoveTo(Release(w, p), p, Pc.Refused)
  }

  /** The token check of a deployment that is reachable before its owner's first login. */
  predicate MayBootstrap(c: Config, r: LoginRequest) {
    c.requireToken ==> c.configuredToken != "" && r.bootstrapToken == c.configuredToken
  }

  /** One step of a login. scalar_one_or_none raises when there is more than one row. */
  function LoginStep(w: World, p: Pid, c: Config): World
    requires p in w.procs
  {
    var r := w.procs[p].request;
    match w.procs[p].pc
    case Start =>
      if |w.rows| > 1 then Refuse(w, p)
      else if w.rows == [] then MoveTo(w, p, SeesNone)
      else MoveTo(w, p, Verifying(w.rows[0]))
    case SeesNone => if w.lock.Some? then w else MoveTo(w.(lock := Some(p), pending := None), p, Locked)
    case Locked =>
      if |w.rows| > 1 then Refuse(w, p)
      else if w.rows == [] then MoveTo(w, p, Creating)
      else MoveTo(w, p, Verifying(w.rows[0]))
    case Creating =>
      if !MayBootstrap(c, r) then Refuse(w, p)
      else MoveTo(w.(pending := Some(Row(p, c.hash(r.key)))), p, Inserted)
    case Inserted =>
      if w.pending.None? then Refuse(w, p)
      else MoveTo(w.(rows := w.rows + [w.pending.value], lock := None, pending := None), p, Created)
    case Created => MoveTo(w.(seedings := w.seedings + [p]), p, Seeded)
    case Seeded => MoveTo(w, p, Admitted)
    case Verifying(row) => if c.verify(r.key, row.keyHash) then MoveTo(w, p, Admitted) else Refuse(w, p)
    case Admitted => MoveTo(Release(w, p).(sessionKey := Some(r.key)), p, GotToken)
    case GotToken => w
    case Refused => w
  }

  datatype Step = Arrive(who: Pid, request: LoginRequest) | Move(who: Pid) | Abort(who: Pid)

  function Next(w: World, step: Step, c: Config): World {
    match step
    case Arrive(p, r) => if p in w.procs then w else w.(procs := w.procs[p := Proc(r, Start)])
    case Move(p) => if p in w.procs then LoginStep(w, p, c) else w
    case Abort(p) => if p in w.procs && !w.procs[p].pc.GotToken? then Refuse(w, p) else w
  }

  function Run(w: World, steps: seq<Step>, c: Config): World {
    if steps == [] then w else Next(Run(w, steps[..|steps| - 1], c), steps[|steps| - 1], c)
  }

  const FRESH_INSTALL := World([], None, None, [], None, map[])

  predicate NeedsLock(pc: Pc) {
    pc.Locked? || pc.Creating? || pc.Inserted?
  }

  /** The login has created the committed row, or its key verifies against that row. */
  ghost predicate Vouched(w: World, p: Pid, key: Key, c: Config) {
    exists row :: row in w.rows && (row == Row(p, c.hash(key)) || c.verify(key, row.keyHash))
  }

  /** Only the holder of the lock can be between the second read and the commit, and while it is, there is no row. */
  ghost predicate LockedOut(w: World) {
    && |w.rows| <= 1
    && (forall p :: p in w.procs && NeedsLock(w.procs[p].pc) ==> w.lock == Some(p))
    && (forall p :: p in w.procs && (w.procs[p].pc.Creating? || w.procs[p].pc.Inserted?) ==> w.rows == [])
  }

  ghost predicate OwnRow(w: World, c: Config) {
    && PendingIsOwn(w, c)
    && (forall p :: p in w.procs && (w.procs[p].pc.Created? || w.procs[p].pc.Seeded?) ==>
          Row(p, c.hash(w.procs[p].request.key)) in w.rows)
    && (forall p, row :: p in w.procs && w.procs[p].pc == Verifying(row) ==> row in w.rows)
  }

  /** Whoever has started to seed created the one row, and whoever is about to is the first. */
  ghost predicate SeedsOnce(w: World) {
    && (w.seedings == [] || (|w.seedings| == 1 && exists row :: row in w.rows && row.id == w.seedings[0]))
    && (forall p :: p in w.seedings ==> p in w.procs && PastSeeding(w.procs[p].pc))
  }

  predicate PastSeeding(pc: Pc) {
    pc.Seeded? || pc.Admitted? || pc.GotToken? || pc.Refused?
  }

  ghost predicate Authentic(w: World, c: Config) {
    forall p :: p in w.procs && (w.procs[p].pc.Admitted? || w.procs[p].pc.GotToken?) ==>
      Vouched(w, p, w.procs[p].request.key, c)
  }

  /** The process-wide session keys are those of a login that was admitted. */
  ghost predicate KeysOfAdmitted(w: World) {
    w.sessionKey.Some? ==>
      exists p :: p in w.procs && w.procs[p].pc.GotToken? && w.procs[p].request.key == w.sessionKey.value
  }

  ghost predicate Inv(w: World, c: Config) {
    LockedOut(w) && OwnRow(w, c) && SeedsOnce(w) && Authentic(w, c) && KeysOfAdmitted(w)
  }

  /** The second read, under the lock, is what keeps a second row from being inserted. */
  lemma StepLocksOut(w: World, step: Step, c: Config)
    requires LockedOut(w)
    ensures LockedOut(Next(w, step, c))
  {
    if step.Move? && step.who in w.procs {
      MoveLocksOut(w, step.who, c);
    }
  }

  lemma MoveLocksOut(w: World, p: Pid, c: Config)
    requires LockedOut(w) && p in w.procs
    ensures LockedOut(LoginStep(w, p, c))
  {
    match w.procs[p].pc {
      case SeesNone =>
      case Inserted =>
      case _ =>
    }
  }

  lemma RowsGrow(w: World, step: Step, c: Config)
    ensures forall row :: row in w.rows ==> row in Next(w, step, c).rows
    ensures Next(w, step, c).rows == w.rows ||
            (step.Move? && step.who in w.procs && w.procs[step.who].pc.Inserted? && w.pending.Some?
             && Next(w, step, c).rows == w.rows + [w.pending.value])
  {
  }

  lemma MovesOnlyItself(w: World, p: Pid, c: Config)
    requires p in w.procs
    ensures var v := LoginStep(w, p, c);
            v.procs.Keys == w.procs.Keys && v.procs[p].request == w.procs[p].request
            && forall q :: q in w.procs && q != p ==> v.procs[q] == w.procs[q]
  {
    match w.procs[p].pc {
      case Start =>
      case SeesNone =>
      case Locked =>
      case Creating =>
      case Inserted =>
      case Verifying(_) =>
      case _ =>
    }
  }

  /** One login moves at a time, and none forgets what it asked for. */
  lemma OthersStand(w: World, step: Step, c: Config)
    ensures forall p :: p in w.procs ==>
              p in Next(w, step, c).procs && Next(w, step, c).procs[p].request == w.procs[p].request
    ensures forall p :: p in w.procs && p != step.who ==> Next(w, step, c).procs[p] == w.procs[p]
    ensures forall p :: p in Next(w, step, c).procs && p !in w.procs ==> Next(w, step, c).procs[p].pc.Start?
  {
    if step.who in w.procs {
      MovesOnlyItself(w, step.who, c);
    }
  }

  /** What is written and not committed is the row of the login that has written it. */
  ghost predicate PendingIsOwn(w: World, c: Config) {
    forall p :: p in w.procs && w.procs[p].pc.Inserted? ==> w.pending == Some(Row(p, c.hash(w.procs[p].request.key)))
  }

  lemma ArrivalKeepsPending(w: World, p: Pid, r: LoginRequest, c: Config)
    requires PendingIsOwn(w, c)
    ensures PendingIsOwn(Next(w, Arrive(p, r), c), c)
  {
  }

  lemma AbortKeepsPending(w: World, p: Pid, c: Config)
    requires LockedOut(w) && PendingIsOwn(w, c)
    ensures PendingIsOwn(Next(w, Abort(p), c), c)
  {
    var v := Next(w, Abort(p), c);
    forall q | q in v.procs && v.procs[q].pc.Inserted? ensures v.pending == Some(Row(q, c.hash(v.procs[q].request.key))) {
      assert q in w.procs && v.procs[q] == w.procs[q];
      assert w.lock == Some(q);
    }
  }

  lemma MoveKeepsPending(w: World, p: Pid, c: Config)
    requires LockedOut(w) && PendingIsOwn(w, c) && p in w.procs
    ensures PendingIsOwn(LoginStep(w, p, c), c)
  {
    MovesOnlyItself(w, p, c);
    var v := LoginStep(w, p, c);
    forall q | q in v.procs && v.procs[q].pc.Inserted? ensures v.pending == Some(Row(q, c.hash(v.procs[q].request.key))) {
      if q != p {
        assert v.procs[q] == w.procs[q] && w.lock == Some(q);
        assert !NeedsLock(w.procs[p].pc);
      }
    }
  }

  lemma PendingIsHolders(w: World, step: Step, c: Config)
    requires LockedOut(w) && PendingIsOwn(w, c)
    ensures PendingIsOwn(Next(w, step, c), c)
  {
    match step
    case Arrive(p, r) => ArrivalKeepsPending(w, p, r, c);
    case Abort(p) => AbortKeepsPending(w, p, c);
    case Move(p) =>
      if p in w.procs {
        MoveKeepsPending(w, p, c);
      }
  }

  lemma CreatedAreCommitted(w: World, step: Step, c: Config)
    requires OwnRow(w, c)
    ensures var v := Next(w, step, c);
            forall p :: p in v.procs && (v.procs[p].pc.Created? || v.procs[p].pc.Seeded?) ==>
              Row(p, c.hash(v.procs[p].request.key)) in v.rows
  {
    OthersStand(w, step, c);
    RowsGrow(w, step, c);
    var v := Next(w, step, c);
    forall p | p in v.procs && (v.procs[p].pc.Created? || v.procs[p].pc.Seeded?)
      ensures Row(p, c.hash(v.procs[p].request.key)) in v.rows
    {
      if p == step.who {
        MoverIsCommitted(w, step, c);
      }
    }
  }

  lemma MoverIsCommitted(w: World, step: Step, c: Config)
    requires OwnRow(w, c)
    requires var v := Next(w, step, c); step.who in v.procs && (v.procs[step.who].pc.Created? || v.procs[step.who].pc.Seeded?)
    ensures var v := Next(w, step, c); Row(step.who, c.hash(v.procs[step.who].request.key)) in v.rows
  {
  }

  lemma VerifiedAreCommitted(w: World, step: Step, c: Config)
    requires OwnRow(w, c)
    ensures var v := Next(w, step, c);
            forall p, row :: p in v.procs && v.procs[p].pc == Verifying(row) ==> row in v.rows
  {
    OthersStand(w, step, c);
    RowsGrow(w, step, c);
  }

  lemma StepOwnsRow(w: World, step: Step, c: Config)
    requires LockedOut(w) && OwnRow(w, c)
    ensures OwnRow(Next(w, step, c), c)
  {
    PendingIsHolders(w, step, c);
    CreatedAreCommitted(w, step, c);
    VerifiedAreCommitted(w, step, c);
  }

  lemma ArrivalSeedsNone(w: World, p: Pid, r: LoginRequest, c: Config)
    requires SeedsOnce(w)
    ensures SeedsOnce(Next(w, Arrive(p, r), c))
  {
  }

  lemma AbortSeedsNone(w: World, p: Pid, c: Config)
    requires SeedsOnce(w)
    ensures SeedsOnce(Next(w, Abort(p), c))
  {
  }

  lemma MoveSeedsOnce(w: World, p: Pid, c: Config)
    requires LockedOut(w) && OwnRow(w, c) && SeedsOnce(w) && p in w.procs
    ensures SeedsOnce(LoginStep(w, p, c))
  {
    MovesOnlyItself(w, p, c);
    RowsGrow(w, Move(p), c);
    if w.procs[p].pc.Created? {
      FirstToSeed(w, p, c);
    } else {
      assert LoginStep(w, p, c).seedings == w.seedings;
    }
  }

  lemma StepSeedsOnce(w: World, step: Step, c: Config)
    requires LockedOut(w) && OwnRow(w, c) && SeedsOnce(w)
    ensures SeedsOnce(Next(w, step, c))
  {
    match step
    case Arrive(p, r) => ArrivalSeedsNone(w, p, r, c);
    case Abort(p) => AbortSeedsNone(w, p, c);
    case Move(p) =>
      if p in w.procs {
        MoveSeedsOnce(w, p, c);
      }
  }

  lemma FirstToSeed(w: World, p: Pid, c: Config)
    requires LockedOut(w) && OwnRow(w, c) && SeedsOnce(w) && p in w.procs && w.procs[p].pc.Created?
    ensures w.seedings == [] && exists row :: row in w.rows && row.id == p
  {
    var mine := Row(p, c.hash(w.procs[p].request.key));
    assert mine in w.rows;
    assert w.rows == [mine];
  }

  lemma VouchedStays(w: World, v: World, p: Pid, key: Key, c: Config)
    requires Vouched(w, p, key, c) && forall row :: row in w.rows ==> row in v.rows
    ensures Vouched(v, p, key, c)
  {
  }

  lemma StepAuthentic(w: World, step: Step, c: Config)
    requires OwnRow(w, c) && Authentic(w, c)
    ensures Authentic(Next(w, step, c), c)
  {
    var v := Next(w, step, c);
    RowsGrow(w, step, c);
    OthersStand(w, step, c);
    forall p | p in v.procs && (v.procs[p].pc.Admitted? || v.procs[p].pc.GotToken?)
      ensures Vouched(v, p, v.procs[p].request.key, c)
    {
      AdmittedIsVouched(w, step, p, c);
      VouchedStays(w, v, p, w.procs[p].request.key, c);
    }
  }

  lemma AdmittedIsVouched(w: World, step: Step, p: Pid, c: Config)
    requires OwnRow(w, c) && Authentic(w, c) && p in Next(w, step, c).procs
    requires Next(w, step, c).procs[p].pc.Admitted? || Next(w, step, c).procs[p].pc.GotToken?
    ensures p in w.procs && Vouched(w, p, w.procs[p].request.key, c)
  {
    OthersStand(w, step, c);
    if step.Move? && step.who == p {
      MoverIsVouched(w, p, c);
    }
  }

  lemma MoverIsVouched(w: World, p: Pid, c: Config)
    requires OwnRow(w, c) && Authentic(w, c) && p in w.procs
    requires LoginStep(w, p, c).procs[p].pc.Admitted? || LoginStep(w, p, c).procs[p].pc.GotToken?
    ensures Vouched(w, p, w.procs[p].request.key, c)
  {
    if w.procs[p].pc.Seeded? {
      assert Row(p, c.hash(w.procs[p].request.key)) in w.rows;
    } else if w.procs[p].pc.Verifying? {
      assert w.procs[p].pc == Verifying(w.procs[p].pc.row);
    }
  }

  lemma StepKeys(w: World, step: Step, c: Config)
    requires KeysOfAdmitted(w)
    ensures KeysOfAdmitted(Next(w, step, c))
  {
    var v := Next(w, step, c);
    OthersStand(w, step, c);
    if v.sessionKey == w.sessionKey && w.sessionKey.Some? {
      var p :| p in w.procs && w.procs[p].pc.GotToken? && w.procs[p].request.key == w.sessionKey.value;
      assert v.procs[p].pc.GotToken?;
    }
  }

  lemma {:induction false} RunKeepsInv(steps: seq<Step>, c: Config)
    ensures Inv(Run(FRESH_INSTALL, steps, c), c)
  {
    if steps != [] {
      var init, last := steps[..|steps| - 1], steps[|steps| - 1];
      RunKeepsInv(init, c);
      var w := Run(FRESH_INSTALL, init, c);
      StepLocksOut(w, last, c);
      StepOwnsRow(w, last, c);
      StepSeedsOnce(w, last, c);
      StepAuthentic(w, last, c);
      StepKeys(w, last, c);
    }
  }

  /** In every interleaving of any number of first logins at most one workspace row is inserted, without any
      uniqueness constraint, and the starter library is seeded at most once, by the login that created the row. */
  lemma OneWorkspaceOneSeeding(steps: seq<Step>, c: Config)
    ensures var w := Run(FRESH_INSTALL, steps, c);
            && |w.rows| <= 1
            && |w.seedings| <= |w.rows|
            && (w.seedings != [] ==> w.rows[0].id == w.seedings[0])
  {
    RunKeepsInv(steps, c);
    SeedingFollowsRow(Run(FRESH_INSTALL, steps, c));
  }

  lemma SeedingFollowsRow(w: World)
    requires LockedOut(w) && SeedsOnce(w)
    ensures |w.seedings| <= |w.rows| && (w.seedings != [] ==> w.rows[0].id == w.seedings[0])
  {
    if w.seedings != [] {
      var row :| row in w.rows && row.id == w.seedings[0];
      assert w.rows[0] == row;
    }
  }

  /** Every login that gets a token created the workspace row or verified against it, and the keys the process
      holds are those of such a login. */
  lemma TokensAreVouchedFor(steps: seq<Step>, c: Config, p: Pid)
    ensures var w := Run(FRESH_INSTALL, steps, c);
            && (p in w.procs && w.procs[p].pc.GotToken? ==>
                  |w.rows| == 1 && (w.rows[0] == Row(p, c.hash(w.procs[p].request.key))
                                    || c.verify(w.procs[p].request.key, w.rows[0].keyHash)))
            && (w.sessionKey.Some? ==>
                  |w.rows| == 1 && (c.verify(w.sessionKey.value, w.rows[0].keyHash)
                                    || w.rows[0].keyHash == c.hash(w.sessionKey.value)))
  {
    RunKeepsInv(steps, c);
    var w := Run(FRESH_INSTALL, steps, c);
    if p in w.procs && w.procs[p].pc.GotToken? {
      VouchedByTheRow(w, p, w.procs[p].request.key, c);
    }
    if w.sessionKey.Some? {
      var q :| q in w.procs && w.procs[q].pc.GotToken? && w.procs[q].request.key == w.sessionKey.value;
      VouchedByTheRow(w, q, w.sessionKey.value, c);
    }
  }

  lemma VouchedByTheRow(w: World, p: Pid, key: Key, c: Config)
    requires |w.rows| <= 1 && Vouched(w, p, key, c)
    ensures |w.rows| == 1 && (w.rows[0] == Row(p, c.hash(key)) || c.verify(key, w.rows[0].keyHash))
  {
    var row :| row in w.rows && (row == Row(p, c.hash(key)) || c.verify(key, row.keyHash));
    assert w.rows[0] == row;
  }

  // ----- the bootstrap token -----

  /** Whoever has written a workspace row was allowed to. */
  ghost predicate OnlyAllowed(w: World, c: Config) {
    && (forall p :: p in w.procs && w.procs[p].pc.Inserted? ==> MayBootstrap(c, w.procs[p].request))
    && (forall row :: row in w.rows ==> row.id in w.procs && MayBootstrap(c, w.procs[row.id].request))
  }

  lemma StepKeepsAllowed(w: World, step: Step, c: Config)
    requires OnlyAllowed(w, c) && PendingIsOwn(w, c)
    ensures OnlyAllowed(Next(w, step, c), c)
  {
    OthersStand(w, step, c);
    RowsGrow(w, step, c);
    var v := Next(w, step, c);
    forall row | row in v.rows ensures row.id in v.procs && MayBootstrap(c, v.procs[row.id].request) {
      if row !in w.rows {
        assert row == w.pending.value && row.id == step.who;
      }
    }
    forall p | p in v.procs && v.procs[p].pc.Inserted? ensures MayBootstrap(c, v.procs[p].request) {
      MoverIsAllowed(w, step, p, c);
    }
  }

  lemma MoverIsAllowed(w: World, step: Step, p: Pid, c: Config)
    requires OnlyAllowed(w, c) && p in Next(w, step, c).procs && Next(w, step, c).procs[p].pc.Inserted?
    ensures MayBootstrap(c, Next(w, step, c).procs[p].request)
  {
    OthersStand(w, step, c);
  }

  lemma {:induction false} RunKeepsAllowed(steps: seq<Step>, c: Config)
    ensures OnlyAllowed(Run(FRESH_INSTALL, steps, c), c)
  {
    if steps != [] {
      var init := steps[..|steps| - 1];
      RunKeepsAllowed(init, c);
      RunKeepsInv(init, c);
      StepKeepsAllowed(Run(FRESH_INSTALL, init, c), steps[|steps| - 1], c);
    }
  }

  /** Over every run of a deployment that requires a bootstrap token, the login that created the workspace row supplied
      the configured one, and one is configured. */
  lemma ClaimNeedsToken(steps: seq<Step>, c: Config, row: Row)
    requires c.requireToken && row in Run(FRESH_INSTALL, steps, c).rows
    ensures var w := Run(FRESH_INSTALL, steps, c);
            c.configuredToken != "" && row.id in w.procs && w.procs[row.id].request.bootstrapToken == c.configuredToken
  {
    RunKeepsAllowed(steps, c);
  }
}
