/** What every reachable state of the login machine satisfies. */
module AuthInvariant {
  import opened Outcomes
  import opened Totp
  import opened Ids
  import opened AuthDb
  import opened AuthHandlers

  // ---- the tables ------------------------------------------------------------------

  ghost predicate SessionsOk(db: Db) {
    && db.birth.Keys <= db.issued.Keys
    && (forall t | t in db.sessions ::
      && t in db.birth
      && db.sessions[t].user == db.birth[t].user
      && db.sessions[t].verified == db.birth[t].verified
      && db.sessions[t].expires <= db.birth[t].at + SessionTtl(db.birth[t].verified)
      && db.sessions[t].user in db.users)
    && (forall t | t in db.birth :: db.birth[t].at <= db.now)
  }

  ghost predicate UsersOk(db: Db) {
    forall u | u in db.users && db.users[u].enabled :: db.users[u].secret.Some?
  }

  // ---- the replay guard --------------------------------------------------------------

  ghost predicate NoReset(log: seq<Event>, from: int, to: int, u: UserId)
    requires 0 <= from && to <= |log|
  {
    forall k | from <= k < to :: log[k] != GuardReset(u)
  }

  ghost predicate AcceptedBy(log: seq<Event>, i: int, u: UserId) {
    0 <= i < |log| && log[i].Accepted? && log[i].user == u
  }

  /** The stored counter is at least every counter accepted since the last reset. */
  ghost predicate GuardCovers(db: Db) {
    forall i, u {:trigger AcceptedBy(db.log, i, u)} |
      AcceptedBy(db.log, i, u) && NoReset(db.log, i, |db.log|, u) ::
      u in db.users && db.log[i].counter <= db.users[u].lastCounter
  }

  /** Between two resets, accepted counters strictly increase. */
  ghost predicate CountersIncrease(log: seq<Event>) {
    forall i, j, u {:trigger AcceptedBy(log, i, u), AcceptedBy(log, j, u)} |
      i < j && AcceptedBy(log, i, u) && AcceptedBy(log, j, u) && NoReset(log, i, j, u) ::
      log[i].counter < log[j].counter
  }

  // ---- the history -------------------------------------------------------------------

  /** log[i] is a counter accepted for u by request p. */
  ghost predicate AcceptedAt(log: seq<Event>, i: int, p: Pid, u: UserId) {
    0 <= i < |log| && log[i].Accepted? && log[i].pid == p && log[i].user == u
  }

  /** t was once a pending session of u. */
  ghost predicate PendingOf(db: Db, t: Token, u: UserId) {
    t in db.birth && db.birth[t].user == u && !db.birth[t].verified
  }

  ghost predicate EventOk(g: Generator, db: Db, i: int)
    requires 0 <= i < |db.log|
  {
    match db.log[i]
    case Accepted(_, _, use, c) => VerdictOf(g, use) == Some(c)
    case Rotated(p, spent, minted, u, accepted) =>
      && accepted < i && AcceptedAt(db.log, accepted, p, u)
      && PendingOf(db, spent, u) && spent !in db.sessions
      && minted in db.birth && db.birth[minted].user == u && db.birth[minted].verified
    case _ => true
  }

  ghost predicate LogOk(g: Generator, db: Db) {
    forall i | 0 <= i < |db.log| :: EventOk(g, db, i)
  }

  /** No two rotations consume the same session, or mint the same one. */
  ghost predicate RotationsDistinct(log: seq<Event>) {
    forall i, j | 0 <= i < j < |log| && log[i].Rotated? && log[j].Rotated? ::
      log[i].spent != log[j].spent && log[i].minted != log[j].minted
  }

  /** Request p rotated a pending session into t. */
  ghost predicate HasRotated(log: seq<Event>, p: Pid, t: Token) {
    exists i | 0 <= i < |log| :: log[i].Rotated? && log[i].pid == p && log[i].minted == t
  }

  // ---- the requests ------------------------------------------------------------------

  /** Request p has drawn t from the generator and has not yet inserted it. */
  ghost predicate Holds(db: Db, p: Pid, t: Token) {
    t in db.issued && db.issued[t] == p && t !in db.birth
  }

  ghost predicate ProcOk(g: Generator, db: Db, p: Pid, h: Handler) {
    match h
    case VerifyLoad(cookie, _, u) => PendingOf(db, cookie, u)
    case VerifyCheck(cookie, _, u, _) => PendingOf(db, cookie, u)
    case VerifyAccept(cookie, u, use, c) => PendingOf(db, cookie, u) && VerdictOf(g, use) == Some(c)
    case VerifyName(cookie, u, i) => PendingOf(db, cookie, u) && AcceptedAt(db.log, i, p, u)
    case VerifyRotate(cookie, u, i, t) => PendingOf(db, cookie, u) && AcceptedAt(db.log, i, p, u) && Holds(db, p, t)
    case CreatePurge(_, _, t) => Holds(db, p, t)
    case CreateStamp(_, _, t) => Holds(db, p, t)
    case CreateInsert(_, kind, t, expires) => Holds(db, p, t) && expires <= db.now + SessionTtl(IsVerified(kind))
    case Accept(_, _, use, c) => VerdictOf(g, use) == Some(c)
    case Finished(Verified(t)) => HasRotated(db.log, p, t)
    case _ => true
  }

  ghost predicate ProcsOk(g: Generator, s: State) {
    forall p | p in s.procs :: ProcOk(g, s.db, p, s.procs[p])
  }

  /** A request that logged something is past the step that logs it. */
  ghost predicate StageOk(s: State, e: Event) {
    match e
    case Accepted(p, _, _, _) => p in s.procs && PastAccept(s.procs[p])
    case Failed(p, t, n) =>
      && p in s.procs && (s.procs[p] == VerifyLock(t) || s.procs[p].Finished?)
      && t in s.db.birth
      && (n >= MAX_TOTP_ATTEMPTS && t in s.db.sessions ==>
            s.procs[p] == VerifyLock(t) || s.procs[p] == Finished(LockFailed(t)))
    case Rotated(p, _, _, _, _) => p in s.procs && s.procs[p].Finished?
    case GuardReset(_) => true
  }

  predicate PastAccept(h: Handler) {
    || h.VerifyName? || h.VerifyRotate? || h.VerifyFail? || h.VerifyLock?
    || h.Arm? || h.Disarm? || h.Remove? || h.Finished?
  }

  ghost predicate StagesOk(s: State) {
    forall i | 0 <= i < |s.db.log| :: StageOk(s, s.db.log[i])
  }

  ghost predicate SameKind(d: Event, e: Event) {
    (d.Accepted? && e.Accepted?) || (d.Failed? && e.Failed?) || (d.Rotated? && e.Rotated?)
  }

  /** A request accepts at most one counter, records at most one failure and
      rotates at most one session. */
  ghost predicate OncePerRequest(log: seq<Event>) {
    forall i, j | 0 <= i < j < |log| && SameKind(log[i], log[j]) :: log[i].pid != log[j].pid
  }

  // ---- failed attempts -----------------------------------------------------------------

  /** The failures recorded on one session, in order. */
  ghost function FailuresOf(log: seq<Event>, t: Token): seq<Event> {
    if log == [] then []
    else
      var e := log[|log| - 1];
      FailuresOf(log[..|log| - 1], t) + (if e.Failed? && e.token == t then [e] else [])
  }

  /** The counts handed out for t are 1, 2, 3, ... and a live row stores the last one. */
  ghost predicate AttemptsOk(db: Db, t: Token) {
    var f := FailuresOf(db.log, t);
    && (forall k | 0 <= k < |f| :: f[k].Failed? && f[k].token == t && f[k].count == k + 1)
    && (t in db.sessions ==> db.sessions[t].attempts == |f|)
    && (t !in db.birth ==> f == [])
  }

  ghost predicate AllAttemptsOk(db: Db) {
    forall t :: AttemptsOk(db, t)
  }

  ghost predicate Inv(g: Generator, s: State) {
    && SessionsOk(s.db) && UsersOk(s.db)
    && GuardCovers(s.db) && CountersIncrease(s.db.log)
    && LogOk(g, s.db) && RotationsDistinct(s.db.log)
    && ProcsOk(g, s) && StagesOk(s) && OncePerRequest(s.db.log)
    && AllAttemptsOk(s.db)
  }

  // ======== statements keep the table invariants =========================================

  /** What the invariant knows about a statement that request p is about to run. */
  ghost predicate StmtOk(g: Generator, db: Db, p: Pid, stmt: Stmt) {
    match stmt
    case InsertSession(t, _, verified, expires) => Holds(db, p, t) && expires <= db.now + SessionTtl(verified)
    case RotateSession(spent, minted, u, i) =>
      Holds(db, p, minted) && PendingOf(db, spent, u) && AcceptedAt(db.log, i, p, u)
    case AdvanceCounter(_, use, c) => VerdictOf(g, use) == Some(c)
    case _ => true
  }

  lemma ExecSessions(g: Generator, db: Db, p: Pid, stmt: Stmt)
    requires SessionsOk(db) && StmtOk(g, db, p, stmt)
    ensures SessionsOk(Exec(db, p, stmt).0)
  {
    match stmt
    case InsertSession(_, _, _, _) => NewSessionOk(g, db, p, stmt);
    case RotateSession(_, _, _, _) => NewSessionOk(g, db, p, stmt);
    case _ => OldSessionsOk(db, p, stmt);
  }

  lemma NewSessionOk(g: Generator, db: Db, p: Pid, stmt: Stmt)
    requires SessionsOk(db) && StmtOk(g, db, p, stmt) && (stmt.InsertSession? || stmt.RotateSession?)
    ensures SessionsOk(Exec(db, p, stmt).0)
  {
  }

  lemma OldSessionsOk(db: Db, p: Pid, stmt: Stmt)
    requires SessionsOk(db) && !stmt.InsertSession? && !stmt.RotateSession?
    ensures SessionsOk(Exec(db, p, stmt).0)
  {
  }

  lemma ExecUsers(db: Db, p: Pid, stmt: Stmt)
    requires UsersOk(db)
    ensures UsersOk(Exec(db, p, stmt).0)
  {
  }

  /** History only grows, and a token is never inserted twice. */
  ghost predicate Grows(db: Db, db': Db) {
    && db.now <= db'.now
    && db.log <= db'.log
    && (forall t | t in db.issued :: t in db'.issued && db'.issued[t] == db.issued[t])
    && (forall t | t in db.birth :: t in db'.birth && db'.birth[t] == db.birth[t])
    && (forall t | t in db.birth && t !in db.sessions :: t !in db'.sessions)
  }

  lemma ExecGrows(g: Generator, db: Db, p: Pid, stmt: Stmt)
    requires StmtOk(g, db, p, stmt)
    requires SessionsOk(db)
    ensures Grows(db, Exec(db, p, stmt).0)
  {
    match stmt
    case InsertSession(_, _, _, _) => NewSessionGrows(g, db, p, stmt);
    case RotateSession(_, _, _, _) => NewSessionGrows(g, db, p, stmt);
    case _ => OldSessionsGrow(db, p, stmt);
  }

  lemma NewSessionGrows(g: Generator, db: Db, p: Pid, stmt: Stmt)
    requires SessionsOk(db) && StmtOk(g, db, p, stmt) && (stmt.InsertSession? || stmt.RotateSession?)
    ensures Grows(db, Exec(db, p, stmt).0)
  {
  }

  lemma OldSessionsGrow(db: Db, p: Pid, stmt: Stmt)
    requires SessionsOk(db) && !stmt.InsertSession? && !stmt.RotateSession?
    ensures Grows(db, Exec(db, p, stmt).0)
  {
  }

  lemma ExecGuard(db: Db, p: Pid, stmt: Stmt)
    requires GuardCovers(db) && CountersIncrease(db.log)
    ensures GuardCovers(Exec(db, p, stmt).0) && CountersIncrease(Exec(db, p, stmt).0.log)
  {
    var db' := Exec(db, p, stmt).0;
    var n := |db.log|;
    if db'.log != db.log {
      assert |db'.log| == n + 1 && db'.log[..n] == db.log;
      forall i, u | AcceptedBy(db'.log, i, u) && i < n
        ensures AcceptedBy(db.log, i, u)
        ensures NoReset(db'.log, i, n, u) <==> NoReset(db.log, i, n, u)
        ensures NoReset(db'.log, i, n + 1, u) <==> NoReset(db.log, i, n, u) && db'.log[n] != GuardReset(u)
      {
        assert forall k | 0 <= k < n :: db'.log[k] == db.log[k];
      }
      forall i, j, u | i < j && AcceptedBy(db'.log, i, u) && AcceptedBy(db'.log, j, u) && NoReset(db'.log, i, j, u)
        ensures db'.log[i].counter < db'.log[j].counter
      {
        assert AcceptedBy(db.log, i, u);
        if j < n {
          assert AcceptedBy(db.log, j, u);
          assert NoReset(db.log, i, j, u) by { assert forall k | 0 <= k < n :: db'.log[k] == db.log[k]; }
        }
      }
    }
  }

  // ======== failures ======================================================================

  lemma FailuresAppend(log: seq<Event>, e: Event, t: Token)
    ensures FailuresOf(log + [e], t) == FailuresOf(log, t) + (if e.Failed? && e.token == t then [e] else [])
  {
    assert (log + [e])[..|log|] == log;
  }

  /** Only BumpAttempts gives out a count; no other statement touches the
      count of a row or brings back a row. */
  lemma ExecOtherAttempts(g: Generator, db: Db, p: Pid, stmt: Stmt, t: Token)
    requires SessionsOk(db) && StmtOk(g, db, p, stmt) && stmt != BumpAttempts(t)
    ensures var db' := Exec(db, p, stmt).0;
      && (t in db'.sessions && t in db.sessions ==> db'.sessions[t].attempts == db.sessions[t].attempts)
      && (t in db'.sessions && t !in db.sessions ==> t !in db.birth && db'.sessions[t].attempts == 0)
      && (t in db.birth ==> t in db'.birth)
      && (db'.log == db.log || (exists e :: db'.log == db.log + [e] && !(e.Failed? && e.token == t)))
  {
    var db' := Exec(db, p, stmt).0;
    if db'.log != db.log { assert db'.log == db.log + [db'.log[|db.log|]]; }
  }

  lemma ExecAttempts(g: Generator, db: Db, p: Pid, stmt: Stmt, t: Token)
    requires SessionsOk(db) && AttemptsOk(db, t) && StmtOk(g, db, p, stmt)
    ensures AttemptsOk(Exec(db, p, stmt).0, t)
  {
    var db' := Exec(db, p, stmt).0;
    if stmt == BumpAttempts(t) {
      if LivePending(db, t) { FailuresAppend(db.log, Failed(p, t, db.sessions[t].attempts + 1), t); }
    } else {
      ExecOtherAttempts(g, db, p, stmt, t);
      if db'.log != db.log {
        var e :| db'.log == db.log + [e] && !(e.Failed? && e.token == t);
        FailuresAppend(db.log, e, t);
      }
      assert FailuresOf(db'.log, t) == FailuresOf(db.log, t);
    }
  }

  // ======== requests ======================================================================

  lemma ExecHolders(g: Generator, db: Db, p: Pid, stmt: Stmt, q: Pid, t: Token)
    requires SessionsOk(db) && StmtOk(g, db, p, stmt)
    requires q != p && Holds(db, q, t)
    ensures Holds(Exec(db, p, stmt).0, q, t)
  {
  }

  lemma OthersOk(g: Generator, db: Db, p: Pid, stmt: Stmt, q: Pid, h: Handler)
    requires SessionsOk(db) && StmtOk(g, db, p, stmt)
    requires q != p && ProcOk(g, db, q, h)
    ensures ProcOk(g, Exec(db, p, stmt).0, q, h)
  {
    ExecGrows(g, db, p, stmt);
    var db' := Exec(db, p, stmt).0;
    assert forall i | 0 <= i < |db.log| :: db'.log[i] == db.log[i];
    if h.VerifyRotate? || h.CreatePurge? || h.CreateStamp? || h.CreateInsert? {
      ExecHolders(g, db, p, stmt, q, h.token);
    }
  }

  lemma NextOk(g: Generator, db: Db, p: Pid, h: Handler, draw: Token)
    requires ProcOk(g, db, p, h) && !h.Finished?
    ensures StmtOk(g, db, p, Next(h, draw))
  {
  }

  predicate InVerify(h: Handler) {
    || h.VerifyGate? || h.VerifyLoad? || h.VerifyCheck? || h.VerifyAccept?
    || h.VerifyName? || h.VerifyRotate? || h.VerifyFail? || h.VerifyLock?
  }

  lemma OwnVerifyOk(cfg: Config, db: Db, p: Pid, h: Handler, draw: Token)
    requires SessionsOk(db) && ProcOk(cfg.g, db, p, h) && InVerify(h)
    requires !Exec(db, p, Next(h, draw)).1.Blocked?
    ensures ProcOk(cfg.g, Exec(db, p, Next(h, draw)).0, p, ResumeVerify(cfg, h, draw, Exec(db, p, Next(h, draw)).1))
  {
    if h.VerifyRotate? {
      var db' := Exec(db, p, Next(h, draw)).0;
      assert db'.log != db.log ==> db'.log[|db.log|] == Rotated(p, h.cookie, h.token, h.user, h.accepted);
    }
  }

  lemma OwnOtherOk(cfg: Config, db: Db, p: Pid, h: Handler, draw: Token)
    requires SessionsOk(db) && ProcOk(cfg.g, db, p, h) && !h.Finished? && !InVerify(h)
    requires !Exec(db, p, Next(h, draw)).1.Blocked?
    ensures ProcOk(cfg.g, Exec(db, p, Next(h, draw)).0, p, Resume(cfg, h, draw, Exec(db, p, Next(h, draw)).1))
  {
  }

  lemma OwnOk(cfg: Config, db: Db, p: Pid, h: Handler, draw: Token)
    requires SessionsOk(db) && ProcOk(cfg.g, db, p, h) && !h.Finished?
    requires !Exec(db, p, Next(h, draw)).1.Blocked?
    ensures ProcOk(cfg.g, Exec(db, p, Next(h, draw)).0, p, Resume(cfg, h, draw, Exec(db, p, Next(h, draw)).1))
  {
    if InVerify(h) {
      OwnVerifyOk(cfg, db, p, h, draw);
      assert Resume(cfg, h, draw, Exec(db, p, Next(h, draw)).1)
           == ResumeVerify(cfg, h, draw, Exec(db, p, Next(h, draw)).1);
    } else {
      OwnOtherOk(cfg, db, p, h, draw);
    }
  }

  // ======== the history ===================================================================

  lemma ExecLog(g: Generator, db: Db, p: Pid, stmt: Stmt)
    requires SessionsOk(db) && LogOk(g, db) && RotationsDistinct(db.log) && StmtOk(g, db, p, stmt)
    ensures LogOk(g, Exec(db, p, stmt).0) && RotationsDistinct(Exec(db, p, stmt).0.log)
  {
    ExecGrows(g, db, p, stmt);
    var db' := Exec(db, p, stmt).0;
    forall i | 0 <= i < |db'.log|
      ensures EventOk(g, db', i)
    {
      if i < |db.log| {
        assert db'.log[i] == db.log[i];
        assert EventOk(g, db, i);
      }
    }
    forall i, j | 0 <= i < j < |db'.log| && db'.log[i].Rotated? && db'.log[j].Rotated?
      ensures db'.log[i].spent != db'.log[j].spent && db'.log[i].minted != db'.log[j].minted
    {
      assert db'.log[i] == db.log[i] && EventOk(g, db, i);
      if j < |db.log| { assert db'.log[j] == db.log[j]; }
    }
  }

  lemma AdvanceStage(cfg: Config, s: State, p: Pid, draw: Token, e: Event)
    requires Inv(cfg.g, s) && p in s.procs && !s.procs[p].Finished?
    requires StageOk(s, e)
    ensures StageOk(Advance(cfg, s, p, draw), e)
  {
    var h := s.procs[p];
    NextOk(cfg.g, s.db, p, h, draw);
    ExecGrows(cfg.g, s.db, p, Next(h, draw));
  }

  /** A statement that logs something says which request did it. */
  lemma ExecEvent(db: Db, p: Pid, stmt: Stmt)
    requires Exec(db, p, stmt).0.log != db.log
    ensures var log' := Exec(db, p, stmt).0.log;
      && |log'| == |db.log| + 1
      && (match log'[|db.log|]
          case Accepted(q, _, _, _) => q == p && stmt.AdvanceCounter?
          case Failed(q, t, n) =>
            q == p && stmt == BumpAttempts(t) && Exec(db, p, stmt).1 == Attempts(Some(n)) && t in db.sessions
          case Rotated(q, _, _, _, _) => q == p && stmt.RotateSession? && Exec(db, p, stmt).1 == Rows(1)
          case GuardReset(_) => true)
      && (stmt.AdvanceCounter? ==> Exec(db, p, stmt).1 == Logged(Some(|db.log|)))
  {
  }

  lemma AdvanceNewStage(cfg: Config, s: State, p: Pid, draw: Token)
    requires Inv(cfg.g, s) && p in s.procs && !s.procs[p].Finished?
    requires Advance(cfg, s, p, draw).db.log != s.db.log
    ensures |Advance(cfg, s, p, draw).db.log| == |s.db.log| + 1
    ensures StageOk(Advance(cfg, s, p, draw), Advance(cfg, s, p, draw).db.log[|s.db.log|])
  {
    var h := s.procs[p];
    NextOk(cfg.g, s.db, p, h, draw);
    ExecEvent(s.db, p, Next(h, draw));
    match h
    case VerifyAccept(_, _, _, _) => AcceptNewStage(cfg, s, p, draw);
    case VerifyFail(_) => FailNewStage(cfg, s, p, draw);
    case VerifyRotate(_, _, _, _) => RotateNewStage(cfg, s, p, draw);
    case Accept(_, _, _, _) => AcceptNewStage(cfg, s, p, draw);
    case _ => assert Advance(cfg, s, p, draw).db.log[|s.db.log|].GuardReset?;
  }

  lemma AcceptNewStage(cfg: Config, s: State, p: Pid, draw: Token)
    requires p in s.procs && (s.procs[p].VerifyAccept? || s.procs[p].Accept?)
    requires |Advance(cfg, s, p, draw).db.log| == |s.db.log| + 1
    ensures StageOk(Advance(cfg, s, p, draw), Advance(cfg, s, p, draw).db.log[|s.db.log|])
  {
  }

  lemma FailNewStage(cfg: Config, s: State, p: Pid, draw: Token)
    requires SessionsOk(s.db) && p in s.procs && s.procs[p].VerifyFail?
    requires |Advance(cfg, s, p, draw).db.log| == |s.db.log| + 1
    ensures StageOk(Advance(cfg, s, p, draw), Advance(cfg, s, p, draw).db.log[|s.db.log|])
  {
  }

  lemma RotateNewStage(cfg: Config, s: State, p: Pid, draw: Token)
    requires p in s.procs && s.procs[p].VerifyRotate?
    requires |Advance(cfg, s, p, draw).db.log| == |s.db.log| + 1
    ensures StageOk(Advance(cfg, s, p, draw), Advance(cfg, s, p, draw).db.log[|s.db.log|])
  {
  }

  lemma AdvanceOnce(cfg: Config, s: State, p: Pid, draw: Token, d: Event)
    requires Inv(cfg.g, s) && p in s.procs && !s.procs[p].Finished?
    requires Advance(cfg, s, p, draw).db.log != s.db.log && |Advance(cfg, s, p, draw).db.log| == |s.db.log| + 1
    requires StageOk(s, d) && SameKind(d, Advance(cfg, s, p, draw).db.log[|s.db.log|])
    ensures d.pid != Advance(cfg, s, p, draw).db.log[|s.db.log|].pid
  {
    ExecEvent(s.db, p, Next(s.procs[p], draw));
  }

  lemma AdvanceStages(cfg: Config, s: State, p: Pid, draw: Token)
    requires Inv(cfg.g, s) && p in s.procs && !s.procs[p].Finished?
    ensures StagesOk(Advance(cfg, s, p, draw)) && OncePerRequest(Advance(cfg, s, p, draw).db.log)
  {
    var s' := Advance(cfg, s, p, draw);
    NextOk(cfg.g, s.db, p, s.procs[p], draw);
    ExecGrows(cfg.g, s.db, p, Next(s.procs[p], draw));
    if s'.db.log != s.db.log { AdvanceNewStage(cfg, s, p, draw); }
    forall i | 0 <= i < |s'.db.log| ensures StageOk(s', s'.db.log[i]) {
      if i < |s.db.log| {
        assert s'.db.log[i] == s.db.log[i] && StageOk(s, s.db.log[i]);
        AdvanceStage(cfg, s, p, draw, s.db.log[i]);
      }
    }
    forall i, j | 0 <= i < j < |s'.db.log| && SameKind(s'.db.log[i], s'.db.log[j])
      ensures s'.db.log[i].pid != s'.db.log[j].pid
    {
      assert s'.db.log[i] == s.db.log[i] && StageOk(s, s.db.log[i]);
      if j < |s.db.log| { assert s'.db.log[j] == s.db.log[j]; } else { AdvanceOnce(cfg, s, p, draw, s.db.log[i]); }
    }
  }

  // ======== every action, every run =========================================================

  lemma AdvanceKeeps(cfg: Config, s: State, p: Pid, draw: Token)
    requires Inv(cfg.g, s) && p in s.procs && !s.procs[p].Finished?
    ensures Inv(cfg.g, Advance(cfg, s, p, draw))
  {
    var h := s.procs[p];
    var stmt := Next(h, draw);
    NextOk(cfg.g, s.db, p, h, draw);
    StatementKeeps(cfg.g, s.db, p, stmt);
    AdvanceStages(cfg, s, p, draw);
    var s' := Advance(cfg, s, p, draw);
    forall q | q in s'.procs
      ensures ProcOk(cfg.g, s'.db, q, s'.procs[q])
    {
      if q != p { OthersOk(cfg.g, s.db, p, stmt, q, s.procs[q]); }
      else if !Exec(s.db, p, stmt).1.Blocked? { OwnOk(cfg, s.db, p, h, draw); }
    }
  }

  lemma StatementKeeps(g: Generator, db: Db, p: Pid, stmt: Stmt)
    requires SessionsOk(db) && UsersOk(db) && GuardCovers(db) && CountersIncrease(db.log)
    requires LogOk(g, db) && RotationsDistinct(db.log) && AllAttemptsOk(db)
    requires StmtOk(g, db, p, stmt)
    ensures var db' := Exec(db, p, stmt).0;
      && SessionsOk(db') && UsersOk(db') && GuardCovers(db') && CountersIncrease(db'.log)
      && LogOk(g, db') && RotationsDistinct(db'.log) && AllAttemptsOk(db')
  {
    ExecSessions(g, db, p, stmt);
    ExecUsers(db, p, stmt);
    ExecGuard(db, p, stmt);
    ExecLog(g, db, p, stmt);
    forall t ensures AttemptsOk(Exec(db, p, stmt).0, t) {
      ExecAttempts(g, db, p, stmt, t);
    }
  }

  /** Statements run outside this machine's requests touch no request and log nothing. */
  predicate Outside(stmt: Stmt) {
    stmt.InsertUser? || stmt.SetPassword? || stmt.DeleteSessionsOf?
  }

  lemma OutsideKeeps(g: Generator, s: State, stmt: Stmt)
    requires Inv(g, s) && Outside(stmt)
    ensures Inv(g, s.(db := Exec(s.db, 0, stmt).0))
  {
    StatementKeeps(g, s.db, 0, stmt);
    var s' := s.(db := Exec(s.db, 0, stmt).0);
    forall q | q in s'.procs ensures ProcOk(g, s'.db, q, s'.procs[q]) {
      assert ProcOk(g, s.db, q, s.procs[q]);
    }
    forall i | 0 <= i < |s'.db.log| ensures StageOk(s', s'.db.log[i]) {
      assert StageOk(s, s.db.log[i]);
    }
  }

  lemma ApplyKeeps(cfg: Config, s: State, a: Action)
    requires Inv(cfg.g, s)
    ensures Inv(cfg.g, Apply(cfg, s, a))
  {
    match a
    case Step(p, draw) => if p in s.procs && !s.procs[p].Finished? { AdvanceKeeps(cfg, s, p, draw); }
    case Register(u, password) => OutsideKeeps(cfg.g, s, InsertUser(u, password));
    case ResetPassword(u, password) => OutsideKeeps(cfg.g, s, SetPassword(u, password));
    case Evict(u) => OutsideKeeps(cfg.g, s, DeleteSessionsOf(u));
    case Fail(p) => if p in s.procs { FailKeeps(cfg, s, p); }
    case _ => QuietKeeps(cfg, s, a);
  }

  lemma QuietKeeps(cfg: Config, s: State, a: Action)
    requires Inv(cfg.g, s) && (a.Tick? || a.Arrive?)
    ensures Inv(cfg.g, Apply(cfg, s, a))
  {
    var s' := Apply(cfg, s, a);
    LaterKeepsTables(cfg.g, s.db, s'.db);
    forall q | q in s'.procs ensures ProcOk(cfg.g, s'.db, q, s'.procs[q]) {
      if q in s.procs { assert ProcOk(cfg.g, s.db, q, s.procs[q]); }
    }
    forall i | 0 <= i < |s'.db.log| ensures StageOk(s', s'.db.log[i]) {
      assert StageOk(s, s.db.log[i]);
    }
  }

  lemma FailingOk(g: Generator, s: State, p: Pid)
    requires p in s.procs && ProcOk(g, s.db, p, s.procs[p])
    ensures ProcOk(g, s.db, p, Failing(s.procs[p]))
  {
  }

  lemma FailingStage(cfg: Config, s: State, p: Pid, e: Event)
    requires p in s.procs && StageOk(s, e)
    ensures StageOk(Apply(cfg, s, Fail(p)), e)
  {
  }

  lemma FailKeeps(cfg: Config, s: State, p: Pid)
    requires Inv(cfg.g, s) && p in s.procs
    ensures Inv(cfg.g, Apply(cfg, s, Fail(p)))
  {
    var s' := Apply(cfg, s, Fail(p));
    forall q | q in s'.procs ensures ProcOk(cfg.g, s'.db, q, s'.procs[q]) {
      assert ProcOk(cfg.g, s.db, q, s.procs[q]);
      if q == p { FailingOk(cfg.g, s, p); }
    }
    forall i | 0 <= i < |s'.db.log| ensures StageOk(s', s'.db.log[i]) {
      FailingStage(cfg, s, p, s.db.log[i]);
    }
  }

  lemma LaterKeepsTables(g: Generator, db: Db, db': Db)
    requires db' == db.(now := db'.now) && db.now <= db'.now
    requires SessionsOk(db) && LogOk(g, db) && AllAttemptsOk(db) && GuardCovers(db)
    ensures SessionsOk(db') && LogOk(g, db') && AllAttemptsOk(db') && GuardCovers(db')
  {
    forall i | 0 <= i < |db'.log| ensures EventOk(g, db', i) { assert EventOk(g, db, i); }
    forall t ensures AttemptsOk(db', t) { assert AttemptsOk(db, t); }
  }

  /** The invariant holds after every schedule. */
  lemma {:induction false} RunKeeps(cfg: Config, s: State, schedule: seq<Action>)
    requires Inv(cfg.g, s)
    ensures Inv(cfg.g, Run(cfg, s, schedule))
    decreases |schedule|
  {
    if schedule != [] {
      ApplyKeeps(cfg, s, schedule[0]);
      RunKeeps(cfg, Apply(cfg, s, schedule[0]), schedule[1..]);
    }
  }

  lemma FreshOk(g: Generator, s: State)
    requires Fresh(s)
    ensures Inv(g, s)
  {
  }

  lemma {:induction false} RunGrows(cfg: Config, s: State, schedule: seq<Action>)
    requires Inv(cfg.g, s)
    ensures Grows(s.db, Run(cfg, s, schedule).db)
    decreases |schedule|
  {
    if schedule != [] {
      var s' := Apply(cfg, s, schedule[0]);
      ApplyGrows(cfg, s, schedule[0]);
      ApplyKeeps(cfg, s, schedule[0]);
      RunGrows(cfg, s', schedule[1..]);
      GrowsTransitive(s.db, s'.db, Run(cfg, s, schedule).db);
    }
  }

  lemma GrowsTransitive(a: Db, b: Db, c: Db)
    requires Grows(a, b) && Grows(b, c)
    ensures Grows(a, c)
  {
  }

  lemma ApplyGrows(cfg: Config, s: State, a: Action)
    requires Inv(cfg.g, s)
    ensures Grows(s.db, Apply(cfg, s, a).db)
  {
    match a
    case Step(p, draw) =>
      if p in s.procs && !s.procs[p].Finished? {
        NextOk(cfg.g, s.db, p, s.procs[p], draw);
        ExecGrows(cfg.g, s.db, p, Next(s.procs[p], draw));
      }
    case _ =>
  }
}
