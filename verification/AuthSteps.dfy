/** The login machine statement by statement: what one action makes of each account
    and each session, where it takes its request, what a failure and the actions
    from outside do, what the answers mean in any run, and what the kill switch
    keeps off. */
module AuthSteps {
  import opened Outcomes
  import opened Totp
  import opened Ids
  import opened AuthDb
  import opened AuthHandlers
  import opened AuthInvariant

  // ---- failures and actions from outside -------------------------------------------------

  /** A statement that fails changes no table. The request answers with an error,
      except that Create goes on without its purge, a reissue and a logout are done,
      a lockout is answered as locked, and a wipe or a counter that fails says so. */
  lemma FailStep(cfg: Config, s: State, p: Pid)
    requires p in s.procs
    ensures var s' := Apply(cfg, s, Fail(p));
      && s'.db == s.db
      && s'.procs == s.procs[p := match s.procs[p]
           case Finished(r) => Finished(r)
           case CreatePurge(u, kind, t) => CreateStamp(u, kind, t)
           case CreateName(_, kind) => Finished(if kind == Reissue then Done else ServerError)
           case CreateInsert(_, kind, _, _) => Finished(if kind == Reissue then Done else ServerError)
           case KillOne(_) => Finished(Done)
           case VerifyLock(t) => Finished(LockFailed(t))
           case KillAndReissue(_) => Finished(Uncontained)
           case Accept(_, _, _, _) => Finished(Refused)
           case _ => Finished(ServerError)]
  {
  }

  /** The clock only goes forward; a registration adds an account without a second
      factor; a reset changes one password; a wipe ends one user's sessions; and a
      request arrives at its own first statement. */
  lemma OutsideStep(cfg: Config, s: State, a: Action)
    requires !a.Step? && !a.Fail?
    ensures var db, db' := s.db, Apply(cfg, s, a).db;
      match a
      case Tick(t) => db' == db.(now := if db.now <= t then t else db.now)
      case Register(u, password) =>
        db' == db.(users := if u in db.users then db.users else db.users[u := User(None, false, 0, password)])
      case ResetPassword(u, password) =>
        db' == db.(users := if u in db.users then db.users[u := db.users[u].(password := password)] else db.users)
      case Evict(u) =>
        && db' == db.(sessions := db'.sessions)
        && (forall t :: t in db'.sessions <==> t in db.sessions && db.sessions[t].user != u)
        && (forall t | t in db'.sessions :: db'.sessions[t] == db.sessions[t])
      case _ => db' == db
    ensures a.Arrive? && a.pid !in s.procs ==>
      Apply(cfg, s, a).procs == s.procs[a.pid := match a.call
        case Verify(cookie, code) => if cfg.totpOn then VerifyGate(cookie, code) else Finished(Refused)
        case Login(u, password) => LoginLoad(u, password)
        case Authed(cookie, req) =>
          if !cfg.totpOn && (req.Enroll? || req.Confirm? || req.Disable?) then Finished(Refused) else Gate(cookie, req)]
    ensures (a.Arrive? ==> a.pid in s.procs) ==> Apply(cfg, s, a).procs == s.procs
  {
  }

  // ---- one action, one row ---------------------------------------------------------------

  ghost predicate Pending(db: Db, t: Token) {
    t in db.sessions && !db.sessions[t].verified && db.now < db.sessions[t].expires
  }

  ghost predicate At(s: State, a: Action) {
    a.Step? && a.pid in s.procs
  }

  /** What the action, a step of a request at h, makes of the account u. */
  ghost function RowAfter(row: User, h: Handler, u: UserId): User {
    match h
    case VerifyAccept(_, v, _, c) => if v == u && row.lastCounter < c then row.(lastCounter := c) else row
    case Accept(v, _, _, c) => if v == u && row.lastCounter < c then row.(lastCounter := c) else row
    case Store(v, sealed) => if v == u && !row.enabled then User(Some(sealed), false, 0, row.password) else row
    case Arm(v) => if v == u && row.secret.Some? then row.(enabled := true) else row
    case Disarm(v) => if v == u then User(None, false, 0, row.password) else row
    case Overwrite(v, password) => if v == u then row.(password := password) else row
    case _ => row
  }

  /** An account changes only by a statement, a registration or a password reset of
      its own, column by column as that says, and disappears only by its removal. */
  lemma UserStep(cfg: Config, s: State, a: Action, u: UserId)
    ensures var users' := Apply(cfg, s, a).db.users;
      if u !in s.db.users then
        && (u in users' <==> a.Register? && a.user == u)
        && (u in users' ==> users'[u] == User(None, false, 0, a.password))
      else
        && (u !in users' <==> At(s, a) && s.procs[a.pid] == Remove(u))
        && (u in users' ==>
              users'[u] == if At(s, a) then RowAfter(s.db.users[u], s.procs[a.pid], u)
                           else if a.ResetPassword? && a.user == u then s.db.users[u].(password := a.password)
                           else s.db.users[u])
  {
    if At(s, a) { StepUser(cfg, s, a.pid, a.draw, u); }
  }

  lemma StepUser(cfg: Config, s: State, p: Pid, draw: Token, u: UserId)
    requires p in s.procs
    ensures var users' := Apply(cfg, s, Step(p, draw)).db.users;
      && (u in users' <==> u in s.db.users && s.procs[p] != Remove(u))
      && (u in users' ==> users'[u] == RowAfter(s.db.users[u], s.procs[p], u))
  {
    var h := s.procs[p];
    if h.Finished? {
    } else if InVerify(h) { VerifyUser(s.db, p, h, draw, u); } else { StatementUser(s.db, p, h, draw, u); }
  }

  lemma VerifyUser(db: Db, p: Pid, h: Handler, draw: Token, u: UserId)
    requires InVerify(h)
    ensures var users' := Exec(db, p, Next(h, draw)).0.users;
      && (u in users' <==> u in db.users) && (u in users' ==> users'[u] == RowAfter(db.users[u], h, u))
  {
  }

  lemma StatementUser(db: Db, p: Pid, h: Handler, draw: Token, u: UserId)
    requires !h.Finished? && !InVerify(h)
    ensures var users' := Exec(db, p, Next(h, draw)).0.users;
      && (u in users' <==> u in db.users && h != Remove(u))
      && (u in users' ==> users'[u] == RowAfter(db.users[u], h, u))
  {
  }

  /** The request at h ends session t. */
  ghost predicate Ends(db: Db, h: Handler, t: Token)
    requires t in db.sessions
  {
    match h
    case KillOne(x) => x == t
    case VerifyLock(x) => x == t
    case KillAll(u) => u == db.sessions[t].user
    case KillAndReissue(u) => u == db.sessions[t].user
    case Remove(u) => u == db.sessions[t].user && u in db.users
    case CreatePurge(_, _, _) => db.sessions[t].expires < db.now
    case VerifyRotate(x, u, _, minted) => x == t && Pending(db, t) && u in db.users && minted !in db.sessions
    case _ => false
  }

  ghost function SessionAfter(db: Db, h: Handler, t: Token): Session
    requires t in db.sessions
  {
    var row := db.sessions[t];
    if h == VerifyFail(t) && Pending(db, t) then Session(row.user, row.verified, row.attempts + 1, row.expires) else row
  }

  /** The request at h opens session t. */
  ghost predicate Opens(db: Db, h: Handler, t: Token, row: Session) {
    match h
    case CreateInsert(u, kind, x, expires) =>
      x == t && u in db.users && row == Session(u, kind != HalfLogin, 0, expires)
    case VerifyRotate(x, u, _, minted) =>
      minted == t && Pending(db, x) && u in db.users && row == Session(u, true, 0, db.now + 43200)
    case _ => false
  }

  /** A session ends only by the statements that end it, changes only by a recorded
      failure, which adds one, and comes only by a Create or a rotation. */
  lemma SessionStep(cfg: Config, s: State, a: Action, t: Token)
    ensures var sessions' := Apply(cfg, s, a).db.sessions;
      if t in s.db.sessions then
        var row := s.db.sessions[t];
        && (t !in sessions' <==> a == Evict(row.user) || (At(s, a) && Ends(s.db, s.procs[a.pid], t)))
        && (t in sessions' ==>
              sessions'[t] == if At(s, a) then SessionAfter(s.db, s.procs[a.pid], t) else row)
      else if t in sessions' then At(s, a) && Opens(s.db, s.procs[a.pid], t, sessions'[t])
      else At(s, a) ==> forall row :: !Opens(s.db, s.procs[a.pid], t, row)
  {
    if At(s, a) && !s.procs[a.pid].Finished? {
      var h := s.procs[a.pid];
      if t !in s.db.sessions { NewSession(s.db, a.pid, h, a.draw, t); }
      else if InVerify(h) { VerifySession(s.db, a.pid, h, a.draw, t); }
      else { OldSession(s.db, a.pid, h, a.draw, t); }
    }
  }

  lemma VerifySession(db: Db, p: Pid, h: Handler, draw: Token, t: Token)
    requires InVerify(h) && t in db.sessions
    ensures var sessions' := Exec(db, p, Next(h, draw)).0.sessions;
      && (t !in sessions' <==> Ends(db, h, t)) && (t in sessions' ==> sessions'[t] == SessionAfter(db, h, t))
  {
  }

  lemma OldSession(db: Db, p: Pid, h: Handler, draw: Token, t: Token)
    requires !h.Finished? && !InVerify(h) && t in db.sessions
    ensures var sessions' := Exec(db, p, Next(h, draw)).0.sessions;
      && (t !in sessions' <==> Ends(db, h, t)) && (t in sessions' ==> sessions'[t] == db.sessions[t])
  {
  }

  lemma NewSession(db: Db, p: Pid, h: Handler, draw: Token, t: Token)
    requires !h.Finished? && t !in db.sessions
    ensures var sessions' := Exec(db, p, Next(h, draw)).0.sessions;
      if t in sessions' then Opens(db, h, t, sessions'[t]) else forall row :: !Opens(db, h, t, row)
  {
  }

  // ---- one statement of a request --------------------------------------------------------

  /** Where a check of this code of this secret leads, from 1970 on. */
  ghost predicate Checked(cfg: Config, db: Db, secret: string, code: string, h': Handler, no: Handler,
                          yes: (CodeUse, int) -> Handler) {
    db.now >= 0 ==>
      && (forall c | LatestTimely(cfg.g, secret, code, db.now, c) :: h' == yes(CodeUse(secret, code, db.now / 30), c))
      && ((forall c :: !Timely(cfg.g, secret, code, db.now, c)) ==> h' == no)
  }

  ghost predicate GoesInVerify(cfg: Config, db: Db, h: Handler, draw: Token, h': Handler) {
    match h
    case VerifyGate(t, code) =>
      h' == if Pending(db, t) then VerifyLoad(t, code, db.sessions[t].user) else Finished(SessionExpired)
    case VerifyLoad(t, code, u) =>
      h' == if u in db.users && db.users[u].secret.Some? && db.users[u].secret.value.Intact?
            then VerifyCheck(t, code, u, db.users[u].secret.value.secret) else VerifyFail(t)
    case VerifyCheck(t, code, u, secret) =>
      Checked(cfg, db, secret, code, h', VerifyFail(t), (use, c) => VerifyAccept(t, u, use, c))
    case VerifyAccept(t, u, _, c) =>
      h' == if u in db.users && db.users[u].lastCounter < c then VerifyName(t, u, |db.log|) else VerifyFail(t)
    case VerifyName(t, u, i) => h' == if draw in db.issued then h else VerifyRotate(t, u, i, draw)
    case VerifyRotate(t, u, _, minted) =>
      h' == Finished(if !Pending(db, t) then SessionExpired
                     else if u in db.users && minted !in db.sessions then Verified(minted) else ServerError)
    case VerifyFail(t) =>
      h' == if !Pending(db, t) then Finished(SessionExpired)
            else if db.sessions[t].attempts < 4 then Finished(InvalidCode(db.sessions[t].attempts + 1))
            else VerifyLock(t)
    case VerifyLock(_) => h' == Finished(TooManyAttempts)
    case _ => true
  }

  ghost predicate GoesInCreate(cfg: Config, db: Db, h: Handler, draw: Token, h': Handler) {
    match h
    case LoginLoad(u, password) =>
      h' == if u !in db.users || db.users[u].password != password then Finished(Refused)
            else CreateName(u, if cfg.totpOn && db.users[u].enabled then HalfLogin else FullLogin)
    case CreateName(u, kind) => h' == if draw in db.issued then h else CreatePurge(u, kind, draw)
    case CreatePurge(u, kind, t) => h' == CreateStamp(u, kind, t)
    case CreateStamp(u, kind, t) =>
      h' == CreateInsert(u, kind, t, db.now + if kind == HalfLogin then 300 else 43200)
    case CreateInsert(u, kind, t, _) =>
      h' == Finished(if u in db.users && t !in db.sessions then LoggedIn(t, kind != HalfLogin)
                     else if kind == Reissue then Done else ServerError)
    case _ => true
  }

  ghost predicate GoesFromLoad(cfg: Config, u: UserId, req: Request, row: User, h': Handler) {
    var checks := (goal: Goal, code: string) =>
      match row.secret case Some(Intact(x, _)) => Check(u, goal, code, x) case _ => Finished(Refused);
    match req
    case ChangePassword(current, next) =>
      h' == if row.password == current then Overwrite(u, next) else Finished(Refused)
    case ChangeEmail(current) => h' == if row.password == current then KillAndReissue(u) else Finished(Refused)
    case Enroll(secret, nonce) => h' == Store(u, Intact(secret, nonce))
    case Confirm(code, password) =>
      h' == if row.password == password then checks(ToConfirm, code) else Finished(Refused)
    case Disable(code, password) =>
      h' == if row.password == password && row.enabled then checks(ToDisable, code) else Finished(Refused)
    case Erase(code, password) =>
      h' == if row.password != password then Finished(Refused)
            else if cfg.totpOn && row.enabled && row.secret.Some? then checks(ToErase, code) else Remove(u)
    case _ => true
  }

  ghost predicate GoesBehindSession(cfg: Config, db: Db, h: Handler, h': Handler) {
    match h
    case Gate(t, req) =>
      if t in db.sessions && db.sessions[t].verified && db.now < db.sessions[t].expires then
        h' == if req.LogOut? then KillOne(t) else if req.LogOutAll? then KillAll(db.sessions[t].user)
              else Load(db.sessions[t].user, req)
      else h' == Finished(SessionExpired)
    case Load(u, req) =>
      if u in db.users then GoesFromLoad(cfg, u, req, db.users[u], h') else h' == Finished(ServerError)
    case Check(u, goal, code, secret) =>
      Checked(cfg, db, secret, code, h', Finished(Refused), (use, c) => Accept(u, goal, use, c))
    case Accept(u, goal, _, c) =>
      h' == if u !in db.users || c <= db.users[u].lastCounter then Finished(Refused)
            else if goal == ToConfirm then Arm(u) else if goal == ToDisable then Disarm(u) else Remove(u)
    case Store(u, _) => h' == Finished(if u in db.users && !db.users[u].enabled then Done else Refused)
    case Arm(u) =>
      h' == Finished(if u in db.users && db.users[u].secret.Some? && !db.users[u].enabled then Done else Refused)
    case Overwrite(u, _) => h' == KillAndReissue(u)
    case KillAndReissue(u) => h' == CreateName(u, Reissue)
    case Disarm(_) => h' == Finished(Done)
    case Remove(_) => h' == Finished(Done)
    case KillAll(_) => h' == Finished(Done)
    case KillOne(_) => h' == Finished(Done)
    case _ => true
  }

  /** Where each statement takes the request that runs it, read from the rows. */
  lemma RequestStep(cfg: Config, s: State, p: Pid, draw: Token)
    requires p in s.procs && !s.procs[p].Finished?
    ensures var s' := Apply(cfg, s, Step(p, draw));
      && p in s'.procs && s'.procs == s.procs[p := s'.procs[p]]
      && GoesInVerify(cfg, s.db, s.procs[p], draw, s'.procs[p])
      && GoesInCreate(cfg, s.db, s.procs[p], draw, s'.procs[p])
      && GoesBehindSession(cfg, s.db, s.procs[p], s'.procs[p])
  {
    StepInVerify(cfg, s, p, draw);
    StepInCreate(cfg, s, p, draw);
    StepBehindSession(cfg, s, p, draw);
  }

  lemma StepInVerify(cfg: Config, s: State, p: Pid, draw: Token)
    requires p in s.procs && !s.procs[p].Finished?
    ensures GoesInVerify(cfg, s.db, s.procs[p], draw, Advance(cfg, s, p, draw).procs[p])
  {
    var h := s.procs[p];
    if h.VerifyCheck? { StepInCheck(cfg, s, p, draw); }
    else if h.VerifyGate? || h.VerifyLoad? || h.VerifyAccept? { StepBeforeMint(cfg, s, p, draw); }
    else if h.VerifyFail? { StepInFail(cfg, s, p, draw); }
  }

  lemma StepInCheck(cfg: Config, s: State, p: Pid, draw: Token)
    requires p in s.procs && s.procs[p].VerifyCheck?
    ensures GoesInVerify(cfg, s.db, s.procs[p], draw, Advance(cfg, s, p, draw).procs[p])
  {
    var h := s.procs[p];
    if s.db.now >= 0 { VerdictInSeconds(cfg.g, h.secret, h.code, s.db.now); }
  }

  lemma StepBeforeMint(cfg: Config, s: State, p: Pid, draw: Token)
    requires p in s.procs && (s.procs[p].VerifyGate? || s.procs[p].VerifyLoad? || s.procs[p].VerifyAccept?)
    ensures GoesInVerify(cfg, s.db, s.procs[p], draw, Advance(cfg, s, p, draw).procs[p])
  {
  }

  lemma StepInFail(cfg: Config, s: State, p: Pid, draw: Token)
    requires p in s.procs && s.procs[p].VerifyFail?
    ensures GoesInVerify(cfg, s.db, s.procs[p], draw, Advance(cfg, s, p, draw).procs[p])
  {
  }

  lemma StepInCreate(cfg: Config, s: State, p: Pid, draw: Token)
    requires p in s.procs && !s.procs[p].Finished?
    ensures GoesInCreate(cfg, s.db, s.procs[p], draw, Advance(cfg, s, p, draw).procs[p])
  {
  }

  lemma StepBehindSession(cfg: Config, s: State, p: Pid, draw: Token)
    requires p in s.procs && !s.procs[p].Finished?
    ensures GoesBehindSession(cfg, s.db, s.procs[p], Advance(cfg, s, p, draw).procs[p])
  {
    var h := s.procs[p];
    if h.Check? && s.db.now >= 0 { VerdictInSeconds(cfg.g, h.secret, h.code, s.db.now); }
    if h.Load? { StepFromLoad(cfg, s, p, draw); }
  }

  lemma StepFromLoad(cfg: Config, s: State, p: Pid, draw: Token)
    requires p in s.procs && s.procs[p].Load?
    ensures GoesBehindSession(cfg, s.db, s.procs[p], Advance(cfg, s, p, draw).procs[p])
  {
  }

  // ---- what the answers mean -------------------------------------------------------------

  /** Request p recorded the n-th failure on t. */
  ghost predicate Recorded(log: seq<Event>, p: Pid, t: Token, n: nat) {
    exists i :: 0 <= i < |log| && log[i] == Failed(p, t, n)
  }

  ghost predicate Truthful(db: Db, p: Pid, h: Handler) {
    match h
    case VerifyLock(t) => exists n :: n >= 5 && Recorded(db.log, p, t, n)
    case Finished(LoggedIn(t, verified)) =>
      t in db.birth && t in db.issued && db.issued[t] == p && db.birth[t].verified == verified
    case Finished(InvalidCode(n)) => n < 5 && exists t :: Recorded(db.log, p, t, n)
    case Finished(TooManyAttempts) => exists t, n :: n >= 5 && Recorded(db.log, p, t, n)
    case Finished(LockFailed(t)) => exists n :: n >= 5 && Recorded(db.log, p, t, n)
    case _ => true
  }

  ghost predicate AllTruthful(s: State) {
    forall p | p in s.procs :: Truthful(s.db, p, s.procs[p])
  }

  lemma RecordStays(log: seq<Event>, log': seq<Event>)
    requires log <= log'
    ensures forall p, t, n | Recorded(log, p, t, n) :: Recorded(log', p, t, n)
  {
    forall p, t, n | Recorded(log, p, t, n) ensures Recorded(log', p, t, n) {
      var i :| 0 <= i < |log| && log[i] == Failed(p, t, n);
      assert log'[i] == Failed(p, t, n);
    }
  }

  lemma TruthfulStays(db: Db, db': Db, p: Pid, h: Handler)
    requires Truthful(db, p, h) && Grows(db, db')
    ensures Truthful(db', p, h)
  {
    RecordStays(db.log, db'.log);
  }

  lemma OwnTruth(cfg: Config, s: State, p: Pid, draw: Token)
    requires Inv(cfg.g, s) && p in s.procs && !s.procs[p].Finished? && Truthful(s.db, p, s.procs[p])
    ensures var s' := Advance(cfg, s, p, draw); Truthful(s'.db, p, s'.procs[p])
  {
    var h, s' := s.procs[p], Advance(cfg, s, p, draw);
    assert ProcOk(cfg.g, s.db, p, h);
    if h.VerifyFail? {
      if LivePending(s.db, h.cookie) {
        var n := s.db.sessions[h.cookie].attempts + 1;
        assert s'.db.log[|s.db.log|] == Failed(p, h.cookie, n);
        assert Recorded(s'.db.log, p, h.cookie, n);
      }
    } else if h.VerifyLock? {
      assert s'.db.log == s.db.log;
    } else if InVerify(h) {
      VerifyAnswers(cfg, s, p, draw);
    } else {
      OtherAnswers(cfg, s, p, draw);
    }
  }

  lemma VerifyAnswers(cfg: Config, s: State, p: Pid, draw: Token)
    requires p in s.procs && InVerify(s.procs[p]) && !s.procs[p].VerifyFail? && !s.procs[p].VerifyLock?
    ensures var h' := Advance(cfg, s, p, draw).procs[p];
      !h'.VerifyLock? && (h'.Finished? ==>
        h'.response.Verified? || h'.response.SessionExpired? || h'.response.ServerError?)
  {
  }

  lemma OtherAnswers(cfg: Config, s: State, p: Pid, draw: Token)
    requires p in s.procs && !InVerify(s.procs[p]) && !s.procs[p].Finished? && ProcOk(cfg.g, s.db, p, s.procs[p])
    ensures var s' := Advance(cfg, s, p, draw); Truthful(s'.db, p, s'.procs[p])
  {
  }

  lemma TruthNext(cfg: Config, s: State, a: Action)
    requires Inv(cfg.g, s) && AllTruthful(s)
    ensures AllTruthful(Apply(cfg, s, a))
  {
    var s' := Apply(cfg, s, a);
    ApplyGrows(cfg, s, a);
    forall p | p in s'.procs ensures Truthful(s'.db, p, s'.procs[p]) {
      if p in s.procs {
        assert Truthful(s.db, p, s.procs[p]);
        if a.Step? && a.pid == p && !s.procs[p].Finished? { OwnTruth(cfg, s, p, a.draw); }
        else if !(a.Fail? && a.pid == p) { TruthfulStays(s.db, s'.db, p, s.procs[p]); }
      }
    }
  }

  lemma {:induction false} TruthForever(cfg: Config, s: State, schedule: seq<Action>)
    requires Inv(cfg.g, s) && AllTruthful(s)
    ensures AllTruthful(Run(cfg, s, schedule))
    decreases |schedule|
  {
    if schedule != [] {
      TruthNext(cfg, s, schedule[0]);
      ApplyKeeps(cfg, s, schedule[0]);
      TruthForever(cfg, Apply(cfg, s, schedule[0]), schedule[1..]);
    }
  }

  /** In every run: a request answered with a session drew its token and stored or
      rotated it, in the class it was told; one told a number of failures below five
      recorded that very failure; and one told it is locked out recorded the fifth
      or a later one. */
  lemma AnswersAreTrue(cfg: Config, init: State, schedule: seq<Action>, p: Pid)
    requires Fresh(init)
    requires var s := Run(cfg, init, schedule); p in s.procs && s.procs[p].Finished?
    ensures var s := Run(cfg, init, schedule);
      match s.procs[p].response
      case Verified(t) => HasRotated(s.db.log, p, t)
      case LoggedIn(t, verified) =>
        t in s.db.birth && t in s.db.issued && s.db.issued[t] == p && s.db.birth[t].verified == verified
      case InvalidCode(n) => n < 5 && exists t :: Recorded(s.db.log, p, t, n)
      case TooManyAttempts => exists t, n :: n >= 5 && Recorded(s.db.log, p, t, n)
      case LockFailed(t) => exists n :: n >= 5 && Recorded(s.db.log, p, t, n)
      case _ => true
  {
    FreshOk(cfg.g, init);
    RunKeeps(cfg, init, schedule);
    TruthForever(cfg, init, schedule);
    var s := Run(cfg, init, schedule);
    assert ProcOk(cfg.g, s.db, p, s.procs[p]) && Truthful(s.db, p, s.procs[p]);
  }

  // ---- the kill switch -------------------------------------------------------------------

  /** A stage of a 2FA request, or of a login or deletion that asks for a code. */
  predicate NeedsSwitch(h: Handler) {
    || InVerify(h) || h.Check? || h.Accept? || h.Store? || h.Arm? || h.Disarm?
    || ((h.Gate? || h.Load?) && (h.req.Enroll? || h.req.Confirm? || h.req.Disable?))
    || ((h.CreateName? || h.CreatePurge? || h.CreateStamp? || h.CreateInsert?) && h.kind == HalfLogin)
  }

  ghost predicate NoneNeedsSwitch(s: State) {
    forall p | p in s.procs :: !NeedsSwitch(s.procs[p])
  }

  /** u's second factor is as it was. */
  ghost predicate SameFactor(users: map<UserId, User>, users': map<UserId, User>, u: UserId) {
    u in users && u in users' ==>
      && users'[u].secret == users[u].secret && users'[u].enabled == users[u].enabled
      && users'[u].lastCounter == users[u].lastCounter
  }

  ghost predicate NoNewPending(sessions: map<Token, Session>, sessions': map<Token, Session>) {
    forall t | t in sessions' && !sessions'[t].verified :: t in sessions && sessions'[t] == sessions[t]
  }

  lemma OffStage(cfg: Config, s: State, a: Action)
    requires !cfg.totpOn && NoneNeedsSwitch(s)
    ensures NoneNeedsSwitch(Apply(cfg, s, a))
  {
    var s' := Apply(cfg, s, a);
    forall p | p in s'.procs ensures !NeedsSwitch(s'.procs[p]) {
      if p in s.procs {
        assert !NeedsSwitch(s.procs[p]);
        if a.Step? && a.pid == p && !s.procs[p].Finished? { OffAdvance(cfg, s, p, a.draw); }
      }
    }
  }

  lemma OffAdvance(cfg: Config, s: State, p: Pid, draw: Token)
    requires !cfg.totpOn && p in s.procs && !s.procs[p].Finished? && !NeedsSwitch(s.procs[p])
    ensures !NeedsSwitch(Advance(cfg, s, p, draw).procs[p])
  {
    var h := s.procs[p];
    if h.Load? { OffLoad(cfg, s, p, draw); }
  }

  lemma OffLoad(cfg: Config, s: State, p: Pid, draw: Token)
    requires !cfg.totpOn && p in s.procs && s.procs[p].Load? && !NeedsSwitch(s.procs[p])
    ensures !NeedsSwitch(Advance(cfg, s, p, draw).procs[p])
  {
  }

  lemma OffStatement(h: Handler, draw: Token, db: Db, p: Pid, u: UserId)
    requires !h.Finished? && !NeedsSwitch(h)
    ensures var db' := Exec(db, p, Next(h, draw)).0;
      SameFactor(db.users, db'.users, u) && NoNewPending(db.sessions, db'.sessions)
  {
  }

  lemma OffStep(cfg: Config, s: State, a: Action, u: UserId)
    requires !cfg.totpOn && NoneNeedsSwitch(s)
    ensures var s' := Apply(cfg, s, a);
      SameFactor(s.db.users, s'.db.users, u) && NoNewPending(s.db.sessions, s'.db.sessions)
  {
    if a.Step? && a.pid in s.procs && !s.procs[a.pid].Finished? {
      OffStatement(s.procs[a.pid], a.draw, s.db, a.pid, u);
    }
  }

  /** u never disappears along the schedule. */
  ghost predicate Remains(cfg: Config, s: State, schedule: seq<Action>, u: UserId)
    decreases |schedule|
  {
    u in s.db.users && (schedule == [] || Remains(cfg, Apply(cfg, s, schedule[0]), schedule[1..], u))
  }

  /** While the switch is off, in any run that starts with no request at work, no
      account's second factor changes and no pending session is opened. */
  lemma {:induction false} SwitchOffFreezes(cfg: Config, s: State, schedule: seq<Action>, u: UserId)
    requires !cfg.totpOn && NoneNeedsSwitch(s) && Remains(cfg, s, schedule, u)
    ensures var s' := Run(cfg, s, schedule);
      && u in s'.db.users && SameFactor(s.db.users, s'.db.users, u) && NoNewPending(s.db.sessions, s'.db.sessions)
    decreases |schedule|
  {
    if schedule != [] {
      OffStage(cfg, s, schedule[0]);
      OffStep(cfg, s, schedule[0], u);
      SwitchOffFreezes(cfg, Apply(cfg, s, schedule[0]), schedule[1..], u);
    }
  }
}
