/** The role machine statement by statement, in role names: what one action makes
    of each role and each session, what each answer means when it is given, and
    what a role change, a verification and an edit come to when nothing runs in
    between. */
module RoleSteps {
  import opened Outcomes
  import opened Ids
  import opened Roles
  import opened RolesProofs

  // ---- one action, one row ---------------------------------------------------------------

  /** p is about to commit a change of v's role. */
  ghost predicate Commits(s: State, a: Action, v: UserId) {
    a.Step? && a.pid in s.procs && s.procs[a.pid].SetCommit? && s.procs[a.pid].target == v
  }

  /** p is about to verify v, which is still `new` and not locked by another. */
  ghost predicate Verifies(s: State, a: Action, v: UserId) {
    && a.Step? && a.pid in s.procs && s.procs[a.pid].VerifyUpdate? && s.procs[a.pid].target == v
    && v in s.db.roles && s.db.roles[v] == New && (v in s.db.rowLocks ==> s.db.rowLocks[v] == a.pid)
  }

  /** A role is written by the commit of a change of it, by a verification of a
      member who is `new`, and by registration, each as it should be, and by
      nothing else; nobody's row disappears. */
  lemma RoleStep(s: State, a: Action, v: UserId)
    ensures var roles' := Apply(s, a).db.roles;
      if v !in s.db.roles then (v in roles' <==> a == Register(v)) && (v in roles' ==> roles'[v] == New)
      else
        && v in roles'
        && roles'[v] == if Commits(s, a, v) then s.procs[a.pid].to
                        else if Verifies(s, a, v) then User else s.db.roles[v]
  {
  }

  /** A session ends by its sign-out, or by the commit of a role change whose
      DELETE found it; it begins by a sign-in with a token never seen. */
  lemma SessionStep(s: State, a: Action, t: Token)
    ensures var sessions' := Apply(s, a).db.sessions;
      if t in s.db.sessions then
        && (t !in sessions' <==> a == SignOut(t) || RevokedBy(s, a, t))
        && (t in sessions' && !a.SignIn? ==> sessions'[t] == s.db.sessions[t])
      else
        && (t in sessions' <==> a.SignIn? && a.token == t && t !in s.db.ever && a.user in s.db.roles)
        && (t in sessions' ==> sessions'[t] == a.user)
  {
  }

  ghost predicate RevokedBy(s: State, a: Action, t: Token) {
    && a.Step? && a.pid in s.procs && s.procs[a.pid].SetCommit? && s.procs[a.pid].target in s.db.roles
    && s.procs[a.pid].revoked.Some? && t in s.procs[a.pid].revoked.value
  }

  /** A request arrives once, before its first statement, and changes no table. */
  lemma ArrivalStep(s: State, p: Pid, call: Handler)
    ensures Apply(s, Arrive(p, call)) ==
      if p !in s.procs && (call.SetLock? || call.VerifyFetch? || call.EditLock?) then
        s.(procs := s.procs[p := call])
      else s
  {
  }

  // ---- answers ---------------------------------------------------------------------------

  ghost predicate Unseen(db: Db, level: int, target: UserId) {
    target !in db.roles || !InScope(level, db.roles[target])
  }

  /** What each answer means at the moment it is given. */
  lemma AnswersExact(s: State, p: Pid)
    requires p in s.procs && !s.procs[p].Finished? && Apply(s, Step(p)).procs[p].Finished?
    ensures var h, r := s.procs[p], Apply(s, Step(p)).procs[p].response;
      match h
      case SetRead(target, _) => r == NotFound && target !in s.db.roles
      case SetCount(_, _, _) => r == LastSuperuser
          && forall u, v | IsSuperuser(s.db, u) && IsSuperuser(s.db, v) :: u == v
      case SetCommit(target, to, read, gone) =>
        r == RoleChanged(read, Lowers(read, to)) && (target in s.db.roles ==>
          Apply(s, Step(p)).db.log == s.db.log + [RoleSet(p, target, read, s.db.roles[target], to, gone)])
      case VerifyFetch(level, target) =>
        if Unseen(s.db, level, target) then r == NotFound else s.db.roles[target] != New && r == NotPending
      case VerifyUpdate(_, target) => r == Verified && Verifies(s, Step(p), target)
      case VerifyRecheck(level, target) => r == if Unseen(s.db, level, target) then NotFound else NotPending
      case EditLock(level, target) => r == NotFound && Unseen(s.db, level, target)
      case EditCommit(_, _) => r == Updated
      case _ => false
  {
    if s.procs[p].SetCount? { AtMostOne(s.db); }
  }

  ghost predicate IsSuperuser(db: Db, u: UserId) {
    u in db.roles && db.roles[u] == Superuser
  }

  lemma AtMostOne(db: Db)
    ensures |Superusers(db)| <= 1 <==> forall u, v | IsSuperuser(db, u) && IsSuperuser(db, v) :: u == v
  {
    if |Superusers(db)| <= 1 {
      forall u, v | IsSuperuser(db, u) && IsSuperuser(db, v) ensures u == v { SubsetSize({u, v}, Superusers(db)); }
    } else {
      var u :| u in Superusers(db);
      assert |Superusers(db) - {u}| >= 1;
      var v :| v in Superusers(db) - {u};
      assert IsSuperuser(db, u) && IsSuperuser(db, v);
    }
  }

  // ---- nothing in between ------------------------------------------------------------------

  function Times(p: Pid, n: nat): seq<Action> {
    if n == 0 then [] else [Step(p)] + Times(p, n - 1)
  }

  lemma OneTime(s: State, p: Pid, n: nat)
    requires n > 0
    ensures Run(s, Times(p, n)) == Run(Apply(s, Step(p)), Times(p, n - 1))
  {
    assert Times(p, n)[1..] == Times(p, n - 1);
  }

  lemma {:induction false} FinishedStays(s: State, p: Pid, n: nat)
    requires p in s.procs && s.procs[p].Finished?
    ensures Run(s, Times(p, n)) == s
  {
    if n > 0 {
      OneTime(s, p, n);
      FinishedStays(s, p, n - 1);
    }
  }

  /** Nobody holds the advisory lock or this row, and p holds nothing. */
  ghost predicate Unlocked(db: Db, p: Pid, target: UserId) {
    db.lock == None && target !in db.rowLocks && forall u | u in db.rowLocks :: db.rowLocks[u] != p
  }

  lemma ReleaseNothing(db: Db, p: Pid, target: UserId)
    requires Unlocked(db, p, target)
    ensures Release(db, p) == db
    ensures Release(db.(lock := Some(p)), p) == db
    ensures Release(db.(lock := Some(p), rowLocks := db.rowLocks[target := p]), p) == db
    ensures Release(db.(rowLocks := db.rowLocks[target := p]), p) == db
  {
    assert Release(db, p).rowLocks == db.rowLocks;
    assert Release(db.(rowLocks := db.rowLocks[target := p]), p).rowLocks == db.rowLocks;
  }

  /** The change itself: the one role, and on a demotion all the target's sessions. */
  ghost predicate RoleIsNow(db: Db, target: UserId, to: Role, db': Db) {
    && target in db.roles && db'.roles == db.roles[target := to]
    && db'.lock == db.lock && db'.rowLocks == db.rowLocks
    && (forall t :: t in db'.sessions <==>
          t in db.sessions && !(Lowers(db.roles[target], to) && db.sessions[t] == target))
    && (forall t | t in db'.sessions :: db'.sessions[t] == db.sessions[t])
  }

  /** What setRole does to the tables and answers. */
  ghost predicate RoleWasSet(db: Db, target: UserId, to: Role, db': Db, r: Response) {
    if target !in db.roles then r == NotFound && db' == db
    else if db.roles[target] == Superuser && to != Superuser && (forall u | IsSuperuser(db, u) :: u == target) then
      r == LastSuperuser && db' == db
    else r == RoleChanged(db.roles[target], Lowers(db.roles[target], to)) && RoleIsNow(db, target, to, db')
  }

  /** A role change that finds the locks free and runs with nothing in between. */
  lemma SetRoleAlone(s: State, p: Pid, target: UserId, to: Role)
    requires p in s.procs && s.procs[p] == SetLock(target, to) && Unlocked(s.db, p, target)
    ensures var s' := Run(s, Times(p, 6));
      && p in s'.procs && s'.procs == s.procs[p := s'.procs[p]] && s'.procs[p].Finished?
      && RoleWasSet(s.db, target, to, s'.db, s'.procs[p].response)
  {
    OneTime(s, p, 6);
    var s1 := Apply(s, Step(p));
    assert s1 == State(s.db.(lock := Some(p)), s.procs[p := SetRead(target, to)]);
    ReadAlone(s1, s.db, p, target, to);
  }

  lemma ReadAlone(s: State, db: Db, p: Pid, target: UserId, to: Role)
    requires Unlocked(db, p, target) && s.db == db.(lock := Some(p))
    requires p in s.procs && s.procs[p] == SetRead(target, to)
    ensures var s' := Run(s, Times(p, 5));
      && p in s'.procs && s'.procs == s.procs[p := s'.procs[p]] && s'.procs[p].Finished?
      && RoleWasSet(db, target, to, s'.db, s'.procs[p].response)
  {
    ReleaseNothing(db, p, target);
    OneTime(s, p, 5);
    var s1 := Apply(s, Step(p));
    if target !in db.roles {
      FinishedStays(s1, p, 4);
    } else if db.roles[target] == Superuser && to != Superuser {
      assert s1 == s.(procs := s.procs[p := SetCount(target, to, Superuser)]);
      CountAlone(s1, db, p, target, to);
    } else {
      assert s1 == s.(procs := s.procs[p := SetUpdate(target, to, db.roles[target])]);
      UpdateAlone(s1, db, p, target, to, 4);
    }
  }

  lemma CountAlone(s: State, db: Db, p: Pid, target: UserId, to: Role)
    requires Unlocked(db, p, target) && s.db == db.(lock := Some(p))
    requires IsSuperuser(db, target) && to != Superuser
    requires p in s.procs && s.procs[p] == SetCount(target, to, Superuser)
    ensures var s' := Run(s, Times(p, 4));
      && p in s'.procs && s'.procs == s.procs[p := s'.procs[p]] && s'.procs[p].Finished?
      && RoleWasSet(db, target, to, s'.db, s'.procs[p].response)
  {
    ReleaseNothing(db, p, target);
    AtMostOne(db);
    assert Superusers(s.db) == Superusers(db);
    OneTime(s, p, 4);
    var s1 := Apply(s, Step(p));
    if |Superusers(db)| <= 1 { FinishedStays(s1, p, 3); } else { UpdateAlone(s1, db, p, target, to, 3); }
  }

  lemma UpdateAlone(s: State, db: Db, p: Pid, target: UserId, to: Role, n: nat)
    requires n >= 3 && target in db.roles && Unlocked(db, p, target) && s.db == db.(lock := Some(p))
    requires p in s.procs && s.procs[p] == SetUpdate(target, to, db.roles[target])
    ensures var s' := Run(s, Times(p, n)); var read := db.roles[target];
      && s'.procs == s.procs[p := Finished(RoleChanged(read, Lowers(read, to)))]
      && RoleIsNow(db, target, to, s'.db)
  {
    var read := db.roles[target];
    OneTime(s, p, n);
    var s1 := AfterUpdateStep(s, p, target, to, read);
    if Lowers(read, to) {
      OneTime(s1, p, n - 1);
      DeletesNext(s1, p, target, to, read);
      var rows := SessionsOf(db, target);
      assert SessionsOf(s1.db, target) == rows;
      var s2 := s1.(procs := s1.procs[p := SetCommit(target, to, read, Some(rows))]);
      CommitAlone(s2, db, p, target, to, Some(rows), n - 2);
      var end := Finished(RoleChanged(read, Lowers(read, to)));
      assert s2.procs[p := end] == s.procs[p := end];
    } else {
      CommitAlone(s1, db, p, target, to, None, n - 1);
    }
  }

  /** The step of the UPDATE. */
  lemma AfterUpdateStep(s: State, p: Pid, target: UserId, to: Role, read: Role) returns (s1: State)
    requires p in s.procs && s.procs[p] == SetUpdate(target, to, read)
    requires target in s.db.roles && target !in s.db.rowLocks
    ensures s1 == Apply(s, Step(p)) && s1.db == s.db.(rowLocks := s.db.rowLocks[target := p])
    ensures s1.procs
         == s.procs[p := if Lowers(read, to) then SetDelete(target, to, read) else SetCommit(target, to, read, None)]
  {
    s1 := Apply(s, Step(p));
  }

  lemma DeletesNext(s: State, p: Pid, target: UserId, to: Role, read: Role)
    requires p in s.procs && s.procs[p] == SetDelete(target, to, read)
    ensures Apply(s, Step(p)) == s.(procs := s.procs[p := SetCommit(target, to, read, Some(SessionsOf(s.db, target)))])
  {
  }

  lemma CommitAlone(s: State, db: Db, p: Pid, target: UserId, to: Role, revoked: Option<set<Token>>, n: nat)
    requires n >= 1 && target in db.roles && Unlocked(db, p, target)
    requires s.db == db.(lock := Some(p), rowLocks := db.rowLocks[target := p])
    requires revoked == if Lowers(db.roles[target], to) then Some(SessionsOf(db, target)) else None
    requires p in s.procs && s.procs[p] == SetCommit(target, to, db.roles[target], revoked)
    ensures var s' := Run(s, Times(p, n)); var read := db.roles[target];
      && s'.procs == s.procs[p := Finished(RoleChanged(read, Lowers(read, to)))]
      && RoleIsNow(db, target, to, s'.db)
  {
    OneTime(s, p, n);
    var read := db.roles[target];
    var s1 := State(CommitRole(s.db, p, target, to, read, revoked),
                    s.procs[p := Finished(RoleChanged(read, Lowers(read, to)))]);
    assert Apply(s, Step(p)) == s1;
    CommitTables(s.db, db, p, target, to, revoked);
    FinishedStays(s1, p, n - 1);
  }

  lemma CommitTables(held: Db, db: Db, p: Pid, target: UserId, to: Role, revoked: Option<set<Token>>)
    requires target in db.roles && Unlocked(db, p, target)
    requires held == db.(lock := Some(p), rowLocks := db.rowLocks[target := p])
    requires revoked == if Lowers(db.roles[target], to) then Some(SessionsOf(db, target)) else None
    ensures RoleIsNow(db, target, to, CommitRole(held, p, target, to, db.roles[target], revoked))
  {
    ReleaseNothing(db, p, target);
  }

  /** A verification with nothing in between. */
  lemma VerifyAlone(s: State, p: Pid, level: int, target: UserId)
    requires p in s.procs && s.procs[p] == VerifyFetch(level, target) && target !in s.db.rowLocks
    ensures Run(s, Times(p, 2)) ==
      if Unseen(s.db, level, target) then s.(procs := s.procs[p := Finished(NotFound)])
      else if s.db.roles[target] != New then s.(procs := s.procs[p := Finished(NotPending)])
      else State(s.db.(roles := s.db.roles[target := User]), s.procs[p := Finished(Verified)])
  {
    OneTime(s, p, 2);
    OneTime(Apply(s, Step(p)), p, 1);
  }

  /** An admin edit with nothing in between. */
  lemma EditAlone(s: State, p: Pid, level: int, target: UserId)
    requires p in s.procs && s.procs[p] == EditLock(level, target) && Unlocked(s.db, p, target)
    ensures Run(s, Times(p, 3)) ==
      if Unseen(s.db, level, target) then s.(procs := s.procs[p := Finished(NotFound)])
      else State(s.db.(log := s.db.log + [Edited(p, level, target)]), s.procs[p := Finished(Updated)])
  {
    ReleaseNothing(s.db, p, target);
    OneTime(s, p, 3);
    var s1 := Apply(s, Step(p));
    OneTime(s1, p, 2);
    OneTime(Apply(s1, Step(p)), p, 1);
  }

  /** A rollback undoes everything but the locks. */
  lemma RollbackUndoes(s: State, p: Pid)
    requires p in s.procs && !s.procs[p].Finished?
    ensures var s' := Apply(s, Rollback(p));
      && s'.procs == s.procs[p := Finished(RolledBack)]
      && s'.db.roles == s.db.roles && s'.db.sessions == s.db.sessions && s'.db.log == s.db.log
      && s'.db.lock != Some(p) && forall u | u in s'.db.rowLocks :: s'.db.rowLocks[u] != p
  {
  }
}
