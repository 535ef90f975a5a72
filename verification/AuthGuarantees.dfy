/** What the login machine promises about whose rows a request may touch, when
    the replay guard may fall, and which secret a confirmed code belongs to. */
module AuthGuarantees {
  import opened Outcomes
  import opened Totp
  import opened Ids
  import opened AuthDb
  import opened AuthHandlers
  import opened AuthInvariant

  // ---- other people's rows -----------------------------------------------------------------

  /** The request at h works for v: by the user it carries, or by its cookie's. */
  predicate ActsFor(db: Db, h: Handler, v: UserId) {
    match h
    case VerifyGate(t, _) => OwnedBy(db, t, v)
    case VerifyFail(t) => OwnedBy(db, t, v)
    case VerifyLock(t) => OwnedBy(db, t, v)
    case Gate(t, _) => OwnedBy(db, t, v)
    case KillOne(t) => OwnedBy(db, t, v)
    case Finished(_) => false
    case _ => h.user == v
  }

  predicate OwnedBy(db: Db, t: Token, v: UserId) {
    t in db.sessions && db.sessions[t].user == v
  }

  /** v's account is as it was; v has no new session, and has lost none but expired ones. */
  ghost predicate Untouched(db: Db, db': Db, v: UserId) {
    && (v in db.users <==> v in db'.users) && (v in db.users ==> db'.users[v] == db.users[v])
    && SameSessions(db, db', v)
  }

  predicate StatementOn(db: Db, stmt: Stmt, v: UserId) {
    match stmt
    case InsertSession(_, u, _, _) => u == v
    case DeleteSession(t) => OwnedBy(db, t, v)
    case DeleteSessionsOf(u) => u == v
    case RotateSession(spent, _, u, _) => u == v || OwnedBy(db, spent, v)
    case BumpAttempts(t) => OwnedBy(db, t, v)
    case AdvanceCounter(u, _, _) => u == v
    case StoreSecret(u, _) => u == v
    case EnableTotp(u) => u == v
    case WipeTotp(u) => u == v
    case SetPassword(u, _) => u == v
    case InsertUser(u, _) => u == v
    case DeleteUser(u) => u == v
    case _ => false
  }

  lemma StatementUntouched(db: Db, p: Pid, stmt: Stmt, v: UserId)
    requires !StatementOn(db, stmt, v)
    ensures Untouched(db, Exec(db, p, stmt).0, v)
  {
    UsersUntouched(db, p, stmt, v);
    if stmt.RotateSession? { RotationUntouched(db, p, stmt, v); } else { SessionsUntouched(db, p, stmt, v); }
  }

  ghost predicate SameSessions(db: Db, db': Db, v: UserId) {
    && (forall t | OwnedBy(db', t, v) :: t in db.sessions && db'.sessions[t] == db.sessions[t])
    && (forall t | OwnedBy(db, t, v) && t in db'.sessions :: db'.sessions[t] == db.sessions[t])
    && (forall t | OwnedBy(db, t, v) && t !in db'.sessions :: db.sessions[t].expires < db'.now)
  }

  lemma UsersUntouched(db: Db, p: Pid, stmt: Stmt, v: UserId)
    requires !StatementOn(db, stmt, v)
    ensures var users' := Exec(db, p, stmt).0.users;
      (v in db.users <==> v in users') && (v in db.users ==> users'[v] == db.users[v])
  {
  }

  lemma SessionsUntouched(db: Db, p: Pid, stmt: Stmt, v: UserId)
    requires !StatementOn(db, stmt, v) && !stmt.RotateSession?
    ensures SameSessions(db, Exec(db, p, stmt).0, v)
  {
  }

  lemma RotationUntouched(db: Db, p: Pid, stmt: Stmt, v: UserId)
    requires !StatementOn(db, stmt, v) && stmt.RotateSession?
    ensures SameSessions(db, Exec(db, p, stmt).0, v)
  {
  }

  /** The handler chain keeps a pending session and its owner together: RotatePending
      itself never compares them. */
  lemma NextIsOwn(g: Generator, db: Db, p: Pid, h: Handler, draw: Token, v: UserId)
    requires SessionsOk(db) && ProcOk(g, db, p, h) && !h.Finished? && !ActsFor(db, h, v)
    ensures !StatementOn(db, Next(h, draw), v)
  {
  }

  /** An action that is not by or on v. */
  predicate Elsewhere(s: State, a: Action, v: UserId) {
    match a
    case Step(p, _) => p in s.procs ==> !ActsFor(s.db, s.procs[p], v)
    case Register(u, _) => u != v
    case ResetPassword(u, _) => u != v
    case Evict(u) => u != v
    case _ => true
  }

  ghost predicate AlwaysElsewhere(cfg: Config, s: State, schedule: seq<Action>, v: UserId)
    decreases |schedule|
  {
    schedule == [] || (Elsewhere(s, schedule[0], v)
        && AlwaysElsewhere(cfg, Apply(cfg, s, schedule[0]), schedule[1..], v))
  }

  lemma ActionUntouched(cfg: Config, s: State, a: Action, v: UserId)
    requires Inv(cfg.g, s) && Elsewhere(s, a, v)
    ensures Untouched(s.db, Apply(cfg, s, a).db, v)
  {
    match a
    case Step(p, draw) =>
      if p in s.procs && !s.procs[p].Finished? {
        assert ProcOk(cfg.g, s.db, p, s.procs[p]);
        NextIsOwn(cfg.g, s.db, p, s.procs[p], draw, v);
        StatementUntouched(s.db, p, Next(s.procs[p], draw), v);
      }
    case Register(u, password) => StatementUntouched(s.db, 0, InsertUser(u, password), v);
    case ResetPassword(u, password) => StatementUntouched(s.db, 0, SetPassword(u, password), v);
    case Evict(u) => StatementUntouched(s.db, 0, DeleteSessionsOf(u), v);
    case _ =>
  }

  lemma UntouchedTransitive(a: Db, b: Db, c: Db, v: UserId)
    requires Untouched(a, b, v) && Untouched(b, c, v) && SessionsOk(a) && Grows(a, b) && Grows(b, c)
    ensures Untouched(a, c, v)
  {
    forall t | OwnedBy(c, t, v) ensures t in a.sessions && c.sessions[t] == a.sessions[t] { assert OwnedBy(b, t, v); }
    forall t | OwnedBy(a, t, v) && t !in c.sessions ensures a.sessions[t].expires < c.now {
      if t in b.sessions { assert OwnedBy(b, t, v); }
    }
  }

  /** In any run in which no request works for v, and nothing else is done to v,
      v's account stays as it is and v's sessions are left alone until they expire:
      no request can change, end or open a session of anybody else. */
  lemma {:induction false} OthersUntouched(cfg: Config, s: State, schedule: seq<Action>, v: UserId)
    requires Inv(cfg.g, s) && AlwaysElsewhere(cfg, s, schedule, v)
    ensures Untouched(s.db, Run(cfg, s, schedule).db, v)
    decreases |schedule|
  {
    if schedule != [] {
      var s' := Apply(cfg, s, schedule[0]);
      ActionUntouched(cfg, s, schedule[0], v);
      ApplyKeeps(cfg, s, schedule[0]);
      OthersUntouched(cfg, s', schedule[1..], v);
      ApplyGrows(cfg, s, schedule[0]);
      RunGrows(cfg, s', schedule[1..]);
      UntouchedTransitive(s.db, s'.db, Run(cfg, s, schedule).db, v);
    }
  }

  // ---- the guard ------------------------------------------------------------------------------

  /** GuardReset(u) was logged between two lengths of the log. */
  ghost predicate ResetBetween(log: seq<Event>, from: int, u: UserId) {
    exists k :: ResetAt(log, from, k, u)
  }

  ghost predicate ResetAt(log: seq<Event>, from: int, k: int, u: UserId) {
    from <= k < |log| && 0 <= k && log[k] == GuardReset(u)
  }

  /** Without a reset, u's guard only rises and u's secret does not change. */
  ghost predicate GuardHeld(db: Db, db': Db, u: UserId) {
    u in db.users ==>
      && u in db'.users && db.users[u].lastCounter <= db'.users[u].lastCounter
      && db'.users[u].secret == db.users[u].secret
  }

  lemma StatementHoldsGuard(db: Db, p: Pid, stmt: Stmt, u: UserId)
    ensures var db' := Exec(db, p, stmt).0;
      && db.log <= db'.log
      && (GuardHeld(db, db', u) || ResetBetween(db'.log, |db.log|, u))
  {
    var db' := Exec(db, p, stmt).0;
    if !GuardHeld(db, db', u) { assert ResetAt(db'.log, |db.log|, |db.log|, u); }
  }

  lemma ActionHoldsGuard(cfg: Config, s: State, a: Action, u: UserId)
    ensures var db' := Apply(cfg, s, a).db;
      && s.db.log <= db'.log
      && (GuardHeld(s.db, db', u) || ResetBetween(db'.log, |s.db.log|, u))
  {
    match a
    case Step(p, draw) =>
      if p in s.procs && !s.procs[p].Finished? { StatementHoldsGuard(s.db, p, Next(s.procs[p], draw), u); }
    case Register(v, password) => StatementHoldsGuard(s.db, 0, InsertUser(v, password), u);
    case ResetPassword(v, password) => StatementHoldsGuard(s.db, 0, SetPassword(v, password), u);
    case Evict(v) => StatementHoldsGuard(s.db, 0, DeleteSessionsOf(v), u);
    case _ =>
  }

  lemma ResetsCarry(log: seq<Event>, log': seq<Event>, from: nat, u: UserId)
    requires from <= |log| && log <= log'
    ensures ResetBetween(log, from, u) || ResetBetween(log', |log|, u) ==> ResetBetween(log', from, u)
  {
    if ResetBetween(log, from, u) {
      var k :| ResetAt(log, from, k, u);
      assert log'[k] == log[k];
      assert ResetAt(log', from, k, u);
    } else if ResetBetween(log', |log|, u) {
      var k :| ResetAt(log', |log|, k, u);
      assert ResetAt(log', from, k, u);
    }
  }

  /** In every run: unless the guard of u was reset, it has not fallen and the
      stored secret is the same ciphertext. */
  lemma {:induction false} GuardFallsOnlyByReset(cfg: Config, s: State, schedule: seq<Action>, u: UserId)
    ensures var db' := Run(cfg, s, schedule).db;
      && s.db.log <= db'.log
      && (GuardHeld(s.db, db', u) || ResetBetween(db'.log, |s.db.log|, u))
    decreases |schedule|
  {
    if schedule != [] {
      var s1 := Apply(cfg, s, schedule[0]);
      var s' := Run(cfg, s, schedule);
      ActionHoldsGuard(cfg, s, schedule[0], u);
      GuardFallsOnlyByReset(cfg, s1, schedule[1..], u);
      ResetsCarry(s1.db.log, s'.db.log, |s.db.log|, u);
    }
  }

  predicate Disarmed(users: map<UserId, User>, u: UserId, secret: Option<Sealed>, password: string) {
    u in users && users[u] == User(secret, false, 0, password)
  }

  lemma ResetStatement(db: Db, p: Pid, stmt: Stmt, u: UserId)
    requires ResetBetween(Exec(db, p, stmt).0.log, |db.log|, u)
    ensures u in db.users
    ensures var users' := Exec(db, p, stmt).0.users;
      || (stmt == DeleteUser(u) && u !in users')
      || (stmt == WipeTotp(u) && Disarmed(users', u, None, db.users[u].password))
      || (stmt.StoreSecret? && stmt.user == u && !db.users[u].enabled
          && Disarmed(users', u, Some(stmt.sealed), db.users[u].password))
  {
    var k :| ResetAt(Exec(db, p, stmt).0.log, |db.log|, k, u);
  }

  lemma ResetsAreSteps(cfg: Config, s: State, a: Action, u: UserId)
    requires ResetBetween(Apply(cfg, s, a).db.log, |s.db.log|, u)
    ensures a.Step? && a.pid in s.procs && !s.procs[a.pid].Finished?
    ensures Apply(cfg, s, a).db == Exec(s.db, a.pid, Next(s.procs[a.pid], a.draw)).0
  {
    var k :| ResetAt(Apply(cfg, s, a).db.log, |s.db.log|, k, u);
  }

  /** And a reset never leaves a second factor armed with the old guard: the
      account is gone, or it is disarmed and its secret wiped or replaced by the
      one being enrolled, which an armed account never gets. */
  lemma ResetDisarms(cfg: Config, s: State, a: Action, u: UserId)
    requires ResetBetween(Apply(cfg, s, a).db.log, |s.db.log|, u)
    ensures a.Step? && a.pid in s.procs && u in s.db.users
    ensures var users' := Apply(cfg, s, a).db.users; var h := s.procs[a.pid];
      || (h == Remove(u) && u !in users')
      || (h == Disarm(u) && Disarmed(users', u, None, s.db.users[u].password))
      || (h.Store? && h.user == u && !s.db.users[u].enabled
          && Disarmed(users', u, Some(h.sealed), s.db.users[u].password))
  {
    ResetsAreSteps(cfg, s, a, u);
    ResetStatement(s.db, a.pid, Next(s.procs[a.pid], a.draw), u);
  }

  // ---- the secret a confirmation arms ----------------------------------------------------------

  /** log[i] is a counter that p had accepted for a code of this secret. */
  ghost predicate AcceptedOf(log: seq<Event>, i: int, p: Pid, code: string, secret: string) {
    0 <= i < |log| && log[i].Accepted? && log[i].pid == p && log[i].use.code == code && log[i].use.secret == secret
  }

  /** Request p has loaded `secret` to confirm an enrolment of u with `code`: it
      checks, has accepted or arms on the strength of that secret, whatever is
      stored by now, and every counter it had accepted since the log was n long
      is one of it. */
  ghost predicate Carries(db: Db, p: Pid, h: Handler, n: nat, u: UserId, code: string, secret: string) {
    && (forall i | n <= i < |db.log| && db.log[i].Accepted? && db.log[i].pid == p ::
          AcceptedOf(db.log, i, p, code, secret))
    && match h
       case Check(v, goal, c, x) => v == u && goal == ToConfirm && c == code && x == secret
       case Accept(v, goal, use, _) => v == u && goal == ToConfirm && use.code == code && use.secret == secret
       case Arm(v) => v == u && exists i :: n <= i && AcceptedAt(db.log, i, p, u)
       case Finished(_) => true
       case _ => false
  }

  /** The step that loads the user row. */
  lemma LoadCarries(cfg: Config, s: State, p: Pid, draw: Token, u: UserId, code: string, password: string)
    requires p in s.procs && s.procs[p] == Load(u, Confirm(code, password))
    ensures var s' := Advance(cfg, s, p, draw);
      && s'.db == s.db
      && (s'.procs[p].Finished? || (u in s.db.users && DecryptSecret(s.db.users[u].secret).Some?
            && Carries(s.db, p, s'.procs[p], |s.db.log|, u, code, DecryptSecret(s.db.users[u].secret).value)))
  {
  }

  /** One more event that p did not log. */
  lemma OthersLog(db: Db, q: Pid, stmt: Stmt, p: Pid, i: int)
    requires q != p && |db.log| <= i < |Exec(db, q, stmt).0.log|
    ensures !(Exec(db, q, stmt).0.log[i].Accepted? && Exec(db, q, stmt).0.log[i].pid == p)
  {
  }

  lemma LogsGrow(cfg: Config, s: State, a: Action, p: Pid)
    ensures s.db.log <= Apply(cfg, s, a).db.log
    ensures !(a.Step? && a.pid == p) ==>
      forall i | |s.db.log| <= i < |Apply(cfg, s, a).db.log| && Apply(cfg, s, a).db.log[i].Accepted? ::
        Apply(cfg, s, a).db.log[i].pid != p
  {
    ActionHoldsGuard(cfg, s, a, 0);
    var log' := Apply(cfg, s, a).db.log;
    if a.Step? && a.pid != p && a.pid in s.procs && !s.procs[a.pid].Finished? {
      forall i | |s.db.log| <= i < |log'| && log'[i].Accepted? ensures log'[i].pid != p {
        OthersLog(s.db, a.pid, Next(s.procs[a.pid], a.draw), p, i);
      }
    }
  }

  lemma OwnStepCarries(cfg: Config, s: State, p: Pid, draw: Token, n: nat, u: UserId, code: string, secret: string)
    requires n <= |s.db.log| && p in s.procs && !s.procs[p].Finished?
    requires Carries(s.db, p, s.procs[p], n, u, code, secret)
    ensures var s' := Advance(cfg, s, p, draw); Carries(s'.db, p, s'.procs[p], n, u, code, secret)
  {
    var s' := Advance(cfg, s, p, draw);
    if s.procs[p].Accept? && s'.procs[p].Arm? {
      assert s'.db.log == s.db.log + [s'.db.log[|s.db.log|]];
      assert AcceptedAt(s'.db.log, |s.db.log|, p, u);
    } else {
      assert s'.db.log == s.db.log;
    }
  }

  lemma ActionCarries(cfg: Config, s: State, a: Action, p: Pid, n: nat, u: UserId, code: string, secret: string)
    requires n <= |s.db.log| && p in s.procs && Carries(s.db, p, s.procs[p], n, u, code, secret)
    ensures var s' := Apply(cfg, s, a);
      && p in s'.procs && s.db.log <= s'.db.log
      && Carries(s'.db, p, s'.procs[p], n, u, code, secret)
  {
    LogsGrow(cfg, s, a, p);
    var s' := Apply(cfg, s, a);
    if a.Step? && a.pid == p {
      if !s.procs[p].Finished? { OwnStepCarries(cfg, s, p, a.draw, n, u, code, secret); }
    } else {
      forall i | n <= i < |s'.db.log| && s'.db.log[i].Accepted? && s'.db.log[i].pid == p
        ensures AcceptedOf(s'.db.log, i, p, code, secret)
      {
        assert s'.db.log[i] == s.db.log[i] && AcceptedOf(s.db.log, i, p, code, secret);
      }
      if s.procs[p].Arm? {
        var i :| n <= i && AcceptedAt(s.db.log, i, p, u);
        assert s'.db.log[i] == s.db.log[i] && AcceptedAt(s'.db.log, i, p, u);
      }
    }
  }

  lemma {:induction false} RunCarries(cfg: Config, s: State, schedule: seq<Action>, p: Pid, n: nat, u: UserId,
                                      code: string, secret: string)
    requires n <= |s.db.log| && p in s.procs && Carries(s.db, p, s.procs[p], n, u, code, secret)
    ensures var s' := Run(cfg, s, schedule); p in s'.procs && Carries(s'.db, p, s'.procs[p], n, u, code, secret)
    decreases |schedule|
  {
    if schedule != [] {
      ActionCarries(cfg, s, schedule[0], p, n, u, code, secret);
      RunCarries(cfg, Apply(cfg, s, schedule[0]), schedule[1..], p, n, u, code, secret);
    }
  }

  lemma {:induction false} FinishedForever(cfg: Config, s: State, schedule: seq<Action>, p: Pid)
    requires p in s.procs && s.procs[p].Finished?
    ensures var s' := Run(cfg, s, schedule); p in s'.procs && s'.procs[p] == s.procs[p]
    decreases |schedule|
  {
    if schedule != [] { FinishedForever(cfg, Apply(cfg, s, schedule[0]), schedule[1..], p); }
  }

  /** Since the log was n long p had a counter accepted for this code and the
      secret that is now stored for u. */
  ghost predicate CodeAccepted(db: Db, p: Pid, n: int, u: UserId, code: string)
    requires u in db.users
  {
    var stored := DecryptSecret(db.users[u].secret);
    stored.Some? && exists i :: n <= i && AcceptedOf(db.log, i, p, code, stored.value)
  }

  /** A confirm that loads the user now and comes to its last statement, which
      arms the second factor: the code it accepted is a code of the secret
      that is then stored if and only if that secret is the one it loaded,
      whatever enrolments and disables ran in between. */
  lemma ConfirmedExactly(cfg: Config, s: State, p: Pid, draw: Token, rest: seq<Action>, u: UserId, code: string,
                         password: string)
    requires p in s.procs && s.procs[p] == Load(u, Confirm(code, password))
    requires var s' := Run(cfg, s, [Step(p, draw)] + rest); p in s'.procs && s'.procs[p] == Arm(u) && u in s'.db.users
    ensures u in s.db.users
    ensures var db' := Run(cfg, s, [Step(p, draw)] + rest).db;
      CodeAccepted(db', p, |s.db.log|, u, code) <==>
        DecryptSecret(db'.users[u].secret) == DecryptSecret(s.db.users[u].secret)
  {
    var s1 := Apply(cfg, s, Step(p, draw));
    assert ([Step(p, draw)] + rest)[1..] == rest;
    var s' := Run(cfg, s1, rest);
    LoadCarries(cfg, s, p, draw, u, code, password);
    if s1.procs[p].Finished? {
      FinishedForever(cfg, s1, rest, p);
    } else {
      var secret := DecryptSecret(s.db.users[u].secret).value;
      RunCarries(cfg, s1, rest, p, |s.db.log|, u, code, secret);
      var i :| |s.db.log| <= i && AcceptedAt(s'.db.log, i, p, u);
      assert AcceptedOf(s'.db.log, i, p, code, secret);
    }
  }

  /** In particular it is when u's secret was not stored anew or wiped since. */
  lemma {:induction false} ConfirmedCodeIsStored(cfg: Config, s: State, schedule: seq<Action>, p: Pid, u: UserId,
                                                 code: string, password: string)
    requires u in s.db.users && p in s.procs && s.procs[p] == Load(u, Confirm(code, password))
    requires var s' := Run(cfg, s, schedule); p in s'.procs && s'.procs[p] == Arm(u)
    requires !ResetBetween(Run(cfg, s, schedule).db.log, |s.db.log|, u)
    ensures var db' := Run(cfg, s, schedule).db; u in db'.users && CodeAccepted(db', p, |s.db.log|, u, code)
    decreases |schedule|
  {
    GuardFallsOnlyByReset(cfg, s, schedule, u);
    var a := schedule[0];
    if a.Step? && a.pid == p {
      assert schedule == [Step(p, a.draw)] + schedule[1..];
      ConfirmedExactly(cfg, s, p, a.draw, schedule[1..], u, code, password);
    } else if a == Fail(p) {
      FinishedForever(cfg, Apply(cfg, s, a), schedule[1..], p);
    } else {
      var s1 := Apply(cfg, s, a);
      ActionHoldsGuard(cfg, s, a, u);
      GuardFallsOnlyByReset(cfg, s1, schedule[1..], u);
      ResetsCarry(s1.db.log, Run(cfg, s, schedule).db.log, |s.db.log|, u);
      ConfirmedCodeIsStored(cfg, s1, schedule[1..], p, u, code, password);
    }
  }
}
