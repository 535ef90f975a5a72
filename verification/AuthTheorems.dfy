/** The guarantees of the login machine, over every schedule of any number of
    requests. */
module AuthTheorems {
  import opened Outcomes
  import opened Totp
  import opened Ids
  import opened AuthDb
  import opened AuthHandlers
  import opened AuthInvariant

  /** A state some schedule reaches from a freshly migrated database. */
  ghost predicate Reachable(cfg: Config, s: State) {
    exists init, schedule :: Fresh(init) && s == Run(cfg, init, schedule)
  }

  lemma ReachableOk(cfg: Config, s: State)
    requires Reachable(cfg, s)
    ensures Inv(cfg.g, s)
  {
    var init, schedule :| Fresh(init) && s == Run(cfg, init, schedule);
    FreshOk(cfg.g, init);
    RunKeeps(cfg, init, schedule);
  }

  // ---- the replay guard ------------------------------------------------------------------

  /** Between two resets of a user's guard no counter is accepted twice, in
      any interleaving of verify, confirm, disable and delete: the accepted
      counters strictly increase. And nobody's second factor is armed without
      a stored secret. */
  lemma ReplayGuard(cfg: Config, s: State)
    requires Reachable(cfg, s)
    ensures CountersIncrease(s.db.log)
    ensures forall u | u in s.db.users && s.db.users[u].enabled :: s.db.users[u].secret.Some?
  {
    ReachableOk(cfg, s);
  }

  /** A code accepted once is never accepted again at the same or an earlier
      step, and at a later step only through a counter past the whole window of
      its first use, even if the generator repeats itself. */
  lemma ResubmissionInAnyRun(cfg: Config, s: State, i: nat, j: nat, u: UserId)
    requires Reachable(cfg, s)
    requires i < j && AcceptedBy(s.db.log, i, u) && AcceptedBy(s.db.log, j, u) && NoReset(s.db.log, i, j, u)
    requires SameCode(s.db.log[i].use, s.db.log[j].use)
    ensures s.db.log[j].use.step > s.db.log[i].use.step
    ensures s.db.log[j].counter > s.db.log[i].use.step + MAX_SKEW
  {
    ReachableOk(cfg, s);
    assert EventOk(cfg.g, s.db, i) && EventOk(cfg.g, s.db, j);
    Resubmission(cfg.g, s.db.log[i].use, s.db.log[j].use, s.db.log[i].counter);
  }

  /** The same from the request's side: while the guard is not reset, the
      compare-and-advance of a resubmitted code matches no row unless the clock
      has moved on. */
  lemma ResubmissionRefused(cfg: Config, s: State, i: nat, u: UserId, p: Pid, again: CodeUse)
    requires Reachable(cfg, s)
    requires AcceptedBy(s.db.log, i, u) && NoReset(s.db.log, i, |s.db.log|, u)
    requires SameCode(s.db.log[i].use, again) && again.step <= s.db.log[i].use.step
    requires VerdictOf(cfg.g, again).Some?
    ensures Exec(s.db, p, AdvanceCounter(u, again, VerdictOf(cfg.g, again).value)) == (s.db, Logged(None))
  {
    ReachableOk(cfg, s);
    assert EventOk(cfg.g, s.db, i);
    if VerdictOf(cfg.g, again).value > s.db.users[u].lastCounter {
      Resubmission(cfg.g, s.db.log[i].use, again, s.db.users[u].lastCounter);
    }
  }

  // ---- conservation ------------------------------------------------------------------------

  /** Each session minted by a 2FA verify is paid for with one counter
      accepted by that very request for the same user and with one pending
      session of that user, which is gone for good. */
  lemma MintPaidFor(cfg: Config, s: State, i: nat)
    requires Reachable(cfg, s)
    requires i < |s.db.log| && s.db.log[i].Rotated?
    ensures var e := s.db.log[i];
      && e.accepted < i && AcceptedAt(s.db.log, e.accepted, e.pid, e.user)
      && PendingOf(s.db, e.spent, e.user) && e.spent !in s.db.sessions
      && e.minted in s.db.birth && s.db.birth[e.minted].user == e.user && s.db.birth[e.minted].verified
  {
    ReachableOk(cfg, s);
    assert EventOk(cfg.g, s.db, i);
  }

  /** And no counter, pending session or new token pays for two of them. */
  lemma MintsAreInjective(cfg: Config, s: State, i: nat, j: nat)
    requires Reachable(cfg, s)
    requires i < |s.db.log| && j < |s.db.log| && s.db.log[i].Rotated? && s.db.log[j].Rotated?
    ensures i == j <==> s.db.log[i].accepted == s.db.log[j].accepted
    ensures i == j <==> s.db.log[i].spent == s.db.log[j].spent
    ensures i == j <==> s.db.log[i].minted == s.db.log[j].minted
  {
    ReachableOk(cfg, s);
    assert EventOk(cfg.g, s.db, i) && EventOk(cfg.g, s.db, j);
    assert i < j ==> SameKind(s.db.log[i], s.db.log[j]);
    assert j < i ==> SameKind(s.db.log[j], s.db.log[i]);
  }

  /** A verify request that answered with a session really performed one of
      those rotations. */
  lemma VerifiedMeansMinted(cfg: Config, s: State, p: Pid, t: Token)
    requires Reachable(cfg, s)
    requires p in s.procs && s.procs[p] == Finished(Verified(t))
    ensures HasRotated(s.db.log, p, t)
  {
    ReachableOk(cfg, s);
    assert ProcOk(cfg.g, s.db, p, s.procs[p]);
  }

  // ---- the attempt budget --------------------------------------------------------------------

  /** The requests about to delete the row of t after a fifth or later failure. */
  ghost function AtLock(s: State, t: Token): set<Pid> {
    set p | p in s.procs && s.procs[p] == VerifyLock(t)
  }

  /** The requests whose lockout DELETE of t failed. */
  ghost function FailedLocks(s: State, t: Token): set<Pid> {
    set p | p in s.procs && s.procs[p] == Finished(LockFailed(t))
  }

  /** The requests that recorded a fifth or later failure on t and have not
      deleted its row. */
  ghost function Lockers(s: State, t: Token): set<Pid> {
    AtLock(s, t) + FailedLocks(s, t)
  }

  /** What a step that logs something did. */
  lemma StepLogs(cfg: Config, s: State, p: Pid, draw: Token)
    requires p in s.procs && !s.procs[p].Finished?
    requires Advance(cfg, s, p, draw).db.log != s.db.log
    ensures var log' := Advance(cfg, s, p, draw).db.log;
      && |log'| == |s.db.log| + 1 && log' == s.db.log + [log'[|s.db.log|]]
      && (match log'[|s.db.log|]
          case Failed(q, t, _) => q == p && s.procs[p] == VerifyFail(t) && t in s.db.sessions
          case Rotated(q, t, _, _, _) =>
            q == p && s.procs[p].VerifyRotate? && s.procs[p].cookie == t && t in s.db.sessions
          case _ => true)
  {
    var stmt := Next(s.procs[p], draw);
    ExecEvent(s.db, p, stmt);
    LogsExtend(s.db, p, stmt);
    match Advance(cfg, s, p, draw).db.log[|s.db.log|]
    case Failed(_, t, _) => assert stmt == BumpAttempts(t);
    case Rotated(_, t, _, _, _) => assert stmt.RotateSession? && stmt.spent == t;
    case _ =>
  }

  lemma LogsExtend(db: Db, p: Pid, stmt: Stmt)
    requires Exec(db, p, stmt).0.log != db.log
    ensures var log' := Exec(db, p, stmt).0.log; |log'| == |db.log| + 1 && log' == db.log + [log'[|db.log|]]
    ensures var e := Exec(db, p, stmt).0.log[|db.log|];
      e.Rotated? ==> stmt.RotateSession? && stmt.spent == e.spent && e.spent in db.sessions
  {
  }

  /** Only steps log. */
  lemma OnlyStepsLog(cfg: Config, s: State, a: Action)
    ensures Apply(cfg, s, a).db.log == s.db.log ||
      (a.Step? && a.pid in s.procs && !s.procs[a.pid].Finished? && Apply(cfg, s, a) == Advance(cfg, s, a.pid, a.draw))
  {
  }

  /** f consists of failures found in log, each by another request. */
  ghost predicate DistinctFailures(f: seq<Event>, log: seq<Event>) {
    && (forall k | 0 <= k < |f| :: f[k].Failed? && f[k] in log)
    && (forall k, l | 0 <= k < l < |f| :: f[k].pid != f[l].pid)
  }

  lemma {:induction false} FailuresDistinct(log: seq<Event>, t: Token)
    requires OncePerRequest(log)
    ensures DistinctFailures(FailuresOf(log, t), log)
  {
    if log != [] {
      var n := |log| - 1;
      var before := log[..n];
      FailuresDistinct(before, t);
      var f := FailuresOf(before, t);
      forall k | 0 <= k < |f|
        ensures f[k] in log && (log[n].Failed? ==> f[k].pid != log[n].pid)
      {
        var i :| 0 <= i < n && before[i] == f[k];
        assert log[i] == f[k];
        assert log[n].Failed? ==> SameKind(log[i], log[n]);
      }
      assert log[n] in log;
    }
  }

  lemma {:induction false} PidsCount(f: seq<Event>, k: nat, within: set<Pid>)
    requires k <= |f|
    requires forall i | 0 <= i < |f| :: f[i].Failed?
    requires forall i, j | 0 <= i < j < |f| :: f[i].pid != f[j].pid
    requires forall i | k <= i < |f| :: f[i].pid in within
    ensures |f| - k <= |within|
    decreases |f| - k
  {
    if k < |f| {
      PidsCount(f, k + 1, within - {f[k].pid});
    }
  }

  /** While a pending row exists with n recorded failures, the counts handed
      out for it are exactly 1..n, each once and each to a different request,
      and at least n - 4 requests have recorded their failure and not deleted
      the row: they are about to, or their DELETE failed. */
  lemma AttemptBudget(cfg: Config, s: State, t: Token)
    requires Reachable(cfg, s) && t in s.db.sessions
    ensures var f := FailuresOf(s.db.log, t);
      && |f| == s.db.sessions[t].attempts
      && (forall k | 0 <= k < |f| :: f[k].Failed? && f[k].token == t && f[k].count == k + 1)
      && (forall k, l | 0 <= k < l < |f| :: f[k].pid != f[l].pid)
    ensures s.db.sessions[t].attempts - (MAX_TOTP_ATTEMPTS - 1) <= |Lockers(s, t)|
  {
    ReachableOk(cfg, s);
    BudgetInState(cfg.g, s, t);
  }

  lemma BudgetInState(g: Generator, s: State, t: Token)
    requires Inv(g, s) && t in s.db.sessions
    ensures var f := FailuresOf(s.db.log, t);
      && |f| == s.db.sessions[t].attempts
      && (forall k | 0 <= k < |f| :: f[k].Failed? && f[k].token == t && f[k].count == k + 1)
      && (forall k, l | 0 <= k < l < |f| :: f[k].pid != f[l].pid)
      && |f| - (MAX_TOTP_ATTEMPTS - 1) <= |Lockers(s, t)|
  {
    var f := FailuresOf(s.db.log, t);
    assert AttemptsOk(s.db, t);
    FailuresDistinct(s.db.log, t);
    if |f| >= MAX_TOTP_ATTEMPTS {
      forall k | MAX_TOTP_ATTEMPTS - 1 <= k < |f|
        ensures f[k].pid in Lockers(s, t)
      {
        assert f[k] in s.db.log;
        var i :| 0 <= i < |s.db.log| && s.db.log[i] == f[k];
        assert StageOk(s, s.db.log[i]);
      }
      PidsCount(f, MAX_TOTP_ATTEMPTS - 1, Lockers(s, t));
    }
  }

  /** The verify requests at work on pending session t. */
  ghost function Busy(s: State, t: Token): set<Pid> {
    set p | p in s.procs && WorksOn(s.procs[p], t)
  }

  predicate WorksOn(h: Handler, t: Token) {
    && (h.VerifyGate? || h.VerifyLoad? || h.VerifyCheck? || h.VerifyAccept? || h.VerifyName? || h.VerifyRotate?
        || h.VerifyFail? || h.VerifyLock?)
    && h.cookie == t
  }

  /** Along the schedule, at most m verify requests for t are at work at once. */
  ghost predicate AtMost(cfg: Config, s: State, schedule: seq<Action>, t: Token, m: nat)
    decreases |schedule|
  {
    |Busy(s, t)| <= m && (schedule == [] || AtMost(cfg, Apply(cfg, s, schedule[0]), schedule[1..], t, m))
  }

  /** How many failures a pending session can absorb with m requests at work at
      once and f lockout DELETEs of it that fail. */
  function Budget(m: nat, f: nat): nat {
    if m == 0 then 0 else MAX_TOTP_ATTEMPTS - 1 + m + f
  }

  ghost predicate WithinBudget(s: State, t: Token, m: nat) {
    |FailuresOf(s.db.log, t)| <= Budget(m, |FailedLocks(s, t)|)
  }

  lemma FailedLocksStay(cfg: Config, s: State, a: Action, t: Token)
    ensures FailedLocks(s, t) <= FailedLocks(Apply(cfg, s, a), t)
    ensures |FailedLocks(s, t)| <= |FailedLocks(Apply(cfg, s, a), t)|
  {
    SubsetSize(FailedLocks(s, t), FailedLocks(Apply(cfg, s, a), t));
  }

  /** A request p that records one more failure on t is at work beside those at the lock. */
  lemma OneMoreAtWork(g: Generator, s: State, p: Pid, t: Token, m: nat)
    requires Inv(g, s) && t in s.db.sessions && p in s.procs && s.procs[p] == VerifyFail(t) && |Busy(s, t)| <= m
    ensures m >= 1 && |FailuresOf(s.db.log, t)| + 1 <= Budget(m, |FailedLocks(s, t)|)
  {
    BudgetInState(g, s, t);
    assert AtLock(s, t) + {p} <= Busy(s, t);
    SubsetSize(AtLock(s, t) + {p}, Busy(s, t));
    assert AtLock(s, t) !! FailedLocks(s, t);
    assert |Lockers(s, t)| == |AtLock(s, t)| + |FailedLocks(s, t)|;
  }

  lemma ApplyFailures(cfg: Config, s: State, a: Action, t: Token, m: nat)
    requires Inv(cfg.g, s) && WithinBudget(s, t, m) && |Busy(s, t)| <= m
    ensures WithinBudget(Apply(cfg, s, a), t, m)
  {
    var s' := Apply(cfg, s, a);
    FailedLocksStay(cfg, s, a, t);
    OnlyStepsLog(cfg, s, a);
    if s'.db.log != s.db.log {
      StepLogs(cfg, s, a.pid, a.draw);
      var e := s'.db.log[|s.db.log|];
      FailuresAppend(s.db.log, e, t);
      if e.Failed? && e.token == t { OneMoreAtWork(cfg.g, s, a.pid, t, m); }
    }
  }

  lemma {:induction false} FailuresBounded(cfg: Config, s: State, schedule: seq<Action>, t: Token, m: nat)
    requires Inv(cfg.g, s) && AtMost(cfg, s, schedule, t, m) && WithinBudget(s, t, m)
    ensures WithinBudget(Run(cfg, s, schedule), t, m)
    decreases |schedule|
  {
    if schedule != [] {
      ApplyFailures(cfg, s, schedule[0], t, m);
      ApplyKeeps(cfg, s, schedule[0]);
      FailuresBounded(cfg, Apply(cfg, s, schedule[0]), schedule[1..], t, m);
    }
  }

  /** If at most m verify requests for a pending session are ever at work at
      once, and f of its lockout DELETEs fail, it absorbs at most 4 + m + f
      failures over its whole life: five when requests come one at a time and
      no DELETE fails. */
  lemma FailuresPerSession(cfg: Config, init: State, schedule: seq<Action>, t: Token, m: nat)
    requires Fresh(init) && AtMost(cfg, init, schedule, t, m)
    ensures var s := Run(cfg, init, schedule);
      |FailuresOf(s.db.log, t)| <= Budget(m, |FailedLocks(s, t)|)
  {
    FreshOk(cfg.g, init);
    FailuresBounded(cfg, init, schedule, t, m);
  }

  /** Once five failures are recorded, and no request is about to lock the session
      or has failed to, it is gone: no later rotation consumes it and no later
      failure is recorded on it. */
  lemma FiveFailuresEndTheSession(cfg: Config, s: State, schedule: seq<Action>, t: Token)
    requires Reachable(cfg, s)
    requires |FailuresOf(s.db.log, t)| >= MAX_TOTP_ATTEMPTS && Lockers(s, t) == {}
    ensures var s' := Run(cfg, s, schedule);
      && t !in s'.db.sessions
      && FailuresOf(s'.db.log, t) == FailuresOf(s.db.log, t)
      && (forall i | |s.db.log| <= i < |s'.db.log| && s'.db.log[i].Rotated? :: s'.db.log[i].spent != t)
  {
    ReachableOk(cfg, s);
    assert AttemptsOk(s.db, t);
    if t in s.db.sessions { BudgetInState(cfg.g, s, t); }
    DeadForever(cfg, s, schedule, t);
  }

  // ---- revocation -----------------------------------------------------------------------------

  /** t once named a session, and its row is gone. */
  ghost predicate Dead(db: Db, t: Token) {
    t in db.birth && t !in db.sessions
  }

  lemma DeadStep(cfg: Config, s: State, a: Action, t: Token)
    requires Inv(cfg.g, s) && Dead(s.db, t)
    ensures var s' := Apply(cfg, s, a);
      && Dead(s'.db, t)
      && FailuresOf(s'.db.log, t) == FailuresOf(s.db.log, t)
      && s.db.log <= s'.db.log
      && (forall i | |s.db.log| <= i < |s'.db.log| && s'.db.log[i].Rotated? :: s'.db.log[i].spent != t)
  {
    ApplyGrows(cfg, s, a);
    var s' := Apply(cfg, s, a);
    OnlyStepsLog(cfg, s, a);
    if s'.db.log != s.db.log {
      StepLogs(cfg, s, a.pid, a.draw);
      FailuresAppend(s.db.log, s'.db.log[|s.db.log|], t);
    }
  }

  lemma {:induction false} DeadForever(cfg: Config, s: State, schedule: seq<Action>, t: Token)
    requires Inv(cfg.g, s) && Dead(s.db, t)
    ensures var s' := Run(cfg, s, schedule);
      && Dead(s'.db, t)
      && FailuresOf(s'.db.log, t) == FailuresOf(s.db.log, t)
      && s.db.log <= s'.db.log
      && (forall i | |s.db.log| <= i < |s'.db.log| && s'.db.log[i].Rotated? :: s'.db.log[i].spent != t)
    decreases |schedule|
  {
    if schedule != [] {
      var s1 := Apply(cfg, s, schedule[0]);
      DeadStep(cfg, s, schedule[0], t);
      ApplyKeeps(cfg, s, schedule[0]);
      DeadForever(cfg, s1, schedule[1..], t);
      var s' := Run(cfg, s, schedule);
      forall i | |s.db.log| <= i < |s'.db.log| && s'.db.log[i].Rotated?
        ensures s'.db.log[i].spent != t
      {
        if i < |s1.db.log| { assert s'.db.log[i] == s1.db.log[i]; }
      }
    }
  }

  /** The actions that run InvalidateAll(u): logout-all, the containment step
      of a password or e-mail change, and the session wipes of ConfirmReset and
      of a demotion. */
  predicate WipesSessionsOf(s: State, a: Action, u: UserId) {
    || a == Evict(u)
    || (a.Step? && a.pid in s.procs && (s.procs[a.pid] == KillAll(u) || s.procs[a.pid] == KillAndReissue(u)))
  }

  lemma WipeKillsRows(cfg: Config, s: State, a: Action, u: UserId, t: Token)
    requires Inv(cfg.g, s) && WipesSessionsOf(s, a, u)
    requires t in s.db.birth && s.db.birth[t].user == u
    ensures Dead(Apply(cfg, s, a).db, t)
  {
  }

  /** After InvalidateAll(u) no token that named a session of u is ever
      admitted again, by either check, in any continuation. */
  lemma RevocationIsFinal(cfg: Config, s: State, a: Action, u: UserId, schedule: seq<Action>, t: Token)
    requires Reachable(cfg, s) && WipesSessionsOf(s, a, u)
    requires t in s.db.birth && s.db.birth[t].user == u
    ensures var db := Run(cfg, Apply(cfg, s, a), schedule).db;
      !Live(db, t) && (forall p ::
          Exec(db, p, FindSession(t)).1 == Owner(None) && Exec(db, p, FindPending(t)).1 == Owner(None))
  {
    ReachableOk(cfg, s);
    WipeKillsRows(cfg, s, a, u, t);
    ApplyKeeps(cfg, s, a);
    DeadForever(cfg, Apply(cfg, s, a), schedule, t);
  }

  /** A verify request past the pending check, whose pending session is gone. */
  ghost predicate Doomed(s: State, p: Pid, t: Token) {
    && Dead(s.db, t) && p in s.procs
    && ((WorksOn(s.procs[p], t) && !s.procs[p].VerifyGate?)
        || (s.procs[p].Finished? && !s.procs[p].response.Verified?))
  }

  lemma DoomedAdvance(cfg: Config, s: State, p: Pid, draw: Token, t: Token)
    requires Inv(cfg.g, s) && Doomed(s, p, t) && !s.procs[p].Finished?
    ensures var h' := Advance(cfg, s, p, draw).procs[p];
      (WorksOn(h', t) && !h'.VerifyGate?) || (h'.Finished? && !h'.response.Verified?)
  {
  }

  lemma DoomedStep(cfg: Config, s: State, a: Action, p: Pid, t: Token)
    requires Inv(cfg.g, s) && Doomed(s, p, t)
    ensures Doomed(Apply(cfg, s, a), p, t)
  {
    DeadStep(cfg, s, a, t);
    if a.Step? && a.pid == p && !s.procs[p].Finished? { DoomedAdvance(cfg, s, p, a.draw, t); }
  }

  lemma {:induction false} DoomedForever(cfg: Config, s: State, schedule: seq<Action>, p: Pid, t: Token)
    requires Inv(cfg.g, s) && Doomed(s, p, t)
    ensures Doomed(Run(cfg, s, schedule), p, t)
    decreases |schedule|
  {
    if schedule != [] {
      DoomedStep(cfg, s, schedule[0], p, t);
      ApplyKeeps(cfg, s, schedule[0]);
      DoomedForever(cfg, Apply(cfg, s, schedule[0]), schedule[1..], p, t);
    }
  }

  lemma WipeDooms(cfg: Config, s: State, a: Action, u: UserId, p: Pid, t: Token)
    requires Inv(cfg.g, s) && WipesSessionsOf(s, a, u)
    requires p in s.procs && WorksOn(s.procs[p], t) && !s.procs[p].VerifyGate? && PendingOf(s.db, t, u)
    ensures Doomed(Apply(cfg, s, a), p, t)
  {
    WipeKillsRows(cfg, s, a, u, t);
  }

  /** And no verify request that was already past the pending check for a
      session of u can still mint one. */
  lemma InFlightVerifyCannotMint(cfg: Config, s: State, a: Action, u: UserId, schedule: seq<Action>, p: Pid, t: Token)
    requires Reachable(cfg, s) && WipesSessionsOf(s, a, u)
    requires p in s.procs && WorksOn(s.procs[p], t) && !s.procs[p].VerifyGate? && PendingOf(s.db, t, u)
    ensures var s' := Run(cfg, Apply(cfg, s, a), schedule);
      p in s'.procs && !(s'.procs[p].Finished? && s'.procs[p].response.Verified?)
  {
    ReachableOk(cfg, s);
    WipeDooms(cfg, s, a, u, p, t);
    ApplyKeeps(cfg, s, a);
    DoomedForever(cfg, Apply(cfg, s, a), schedule, p, t);
  }

  // ---- token classes ----------------------------------------------------------------------------

  /** A token is only ever pending or only ever verified: no token is admitted
      by both checks, at whatever two moments of a run. */
  lemma OneClassPerToken(cfg: Config, s: State, schedule: seq<Action>, t: Token)
    requires Reachable(cfg, s) && Live(s.db, t)
    ensures var s' := Run(cfg, s, schedule);
      Live(s'.db, t) ==>
          s'.db.sessions[t].verified == s.db.sessions[t].verified && s'.db.sessions[t].user == s.db.sessions[t].user
  {
    ReachableOk(cfg, s);
    RunKeeps(cfg, s, schedule);
    RunGrows(cfg, s, schedule);
  }

  /** A token is admitted only within its class's lifetime: five minutes for a
      pending session, twelve hours for a verified one, from its insertion. */
  lemma AdmittedWithinLifetime(cfg: Config, s: State, t: Token)
    requires Reachable(cfg, s) && Live(s.db, t)
    ensures t in s.db.birth
    ensures s.db.birth[t].at <= s.db.now < s.db.birth[t].at + (if s.db.sessions[t].verified then 43200 else 300)
  {
    ReachableOk(cfg, s);
  }
}
