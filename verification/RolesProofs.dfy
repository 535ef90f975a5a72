/** What the role machine keeps, and what its commits mean, in every interleaving. */
module RolesProofs {
  import opened Outcomes
  import opened Ids
  import opened Roles

  predicate InRoleTx(h: Handler) {
    h.SetRead? || h.SetCount? || h.SetUpdate? || h.SetDelete? || h.SetCommit?
  }

  predicate HasRead(h: Handler) {
    h.SetCount? || h.SetUpdate? || h.SetDelete? || h.SetCommit?
  }

  predicate HoldsRow(h: Handler) {
    h.SetDelete? || h.SetCommit? || h.EditWrite? || h.EditCommit?
  }

  /** The role a transaction read is still the role it is about to overwrite,
      unless it read `new` and a verification came in between. */
  predicate Current(db: Db, target: UserId, read: Role) {
    target in db.roles && (db.roles[target] == read || (read == New && db.roles[target] == User))
  }

  ghost predicate ProcOk(db: Db, p: Pid, h: Handler) {
    && (InRoleTx(h) <==> db.lock == Some(p))
    && (HoldsRow(h) ==> h.target in db.rowLocks && db.rowLocks[h.target] == p)
    && (HasRead(h) ==> Current(db, h.target, h.read))
    && (h.SetCount? ==> h.read == Superuser && h.to != Superuser)
    && ((h.SetUpdate? || h.SetDelete? || h.SetCommit?) && h.read == Superuser && h.to != Superuser ==>
        |Superusers(db)| >= 2)
    && (h.SetDelete? ==> IsDemotion(h.read, h.to))
    && (h.SetCommit? ==> (h.revoked.Some? <==> IsDemotion(h.read, h.to)))
    && (h.SetCommit? && h.revoked.Some? ==> h.revoked.value <= db.ever)
    && (h.EditWrite? || h.EditCommit? ==> h.target in db.roles && VisibleTo(h.viewerLevel, db.roles[h.target]))
  }

  ghost predicate EventOk(db: Db, e: Event) {
    match e
    case RoleSet(_, target, read, overwritten, to, revoked) =>
      && (overwritten == read || (read == New && overwritten == User))
      && (revoked.Some? <==> IsDemotion(read, to))
      && (revoked.Some? ==> revoked.value <= db.ever && revoked.value !! db.sessions.Keys)
    case Edited(_, level, target) => target in db.roles
  }

  ghost predicate Inv(s: State) {
    && |Superusers(s.db)| >= 1
    && s.db.sessions.Keys <= s.db.ever
    && (s.db.lock.Some? ==> s.db.lock.value in s.procs)
    && (forall u | u in s.db.rowLocks :: s.db.rowLocks[u] in s.procs)
    && (forall u | u in s.db.rowLocks :: HoldsRow(s.procs[s.db.rowLocks[u]]) && s.procs[s.db.rowLocks[u]].target == u)
    && (forall p | p in s.procs :: ProcOk(s.db, p, s.procs[p]))
    && (forall i | 0 <= i < |s.db.log| :: EventOk(s.db, s.db.log[i]))
  }

  // ---- counting superusers ------------------------------------------------------------------

  /** Overwriting one role costs at most one superuser, and none if the role
      was not superuser or stays superuser. */
  lemma SuperusersAfter(db: Db, db': Db, target: UserId, to: Role)
    requires target in db.roles && db'.roles == db.roles[target := to]
    ensures |Superusers(db')| >= |Superusers(db)| - 1
    ensures db.roles[target] != Superuser || to == Superuser ==> |Superusers(db')| >= |Superusers(db)|
    ensures db.roles[target] != Superuser && to != Superuser ==> Superusers(db') == Superusers(db)
  {
    var before, after := Superusers(db), Superusers(db');
    SubsetSize(before - {target}, after);
    if db.roles[target] != Superuser || to == Superuser {
      assert before <= after;
      SubsetSize(before, after);
    }
  }

  // ---- one action ----------------------------------------------------------------------------

  lemma EventStays(db: Db, db': Db, e: Event)
    requires db.ever <= db'.ever && (forall t | t in db.ever && t !in db.sessions :: t !in db'.sessions)
    requires db.roles.Keys <= db'.roles.Keys
    requires EventOk(db, e)
    ensures EventOk(db', e)
  {
  }

  lemma CommitKeeps(s: State, p: Pid)
    requires Inv(s) && p in s.procs && s.procs[p].SetCommit?
    ensures Inv(Advance(s, p))
  {
    var h := s.procs[p];
    assert ProcOk(s.db, p, h);
    var s' := Advance(s, p);
    SuperusersAfter(s.db, s'.db, h.target, h.to);
    forall q | q in s'.procs ensures ProcOk(s'.db, q, s'.procs[q]) {
      assert ProcOk(s.db, q, s.procs[q]);
    }
    forall i | 0 <= i < |s'.db.log| ensures EventOk(s'.db, s'.db.log[i]) {
      if i < |s.db.log| {
        assert s'.db.log[i] == s.db.log[i];
        EventStays(s.db, s'.db, s.db.log[i]);
      }
    }
  }

  lemma VerifyKeeps(s: State, p: Pid)
    requires Inv(s) && p in s.procs && s.procs[p].VerifyUpdate?
    ensures Inv(Advance(s, p))
  {
    var h := s.procs[p];
    assert ProcOk(s.db, p, h);
    var s' := Advance(s, p);
    if s'.db.roles != s.db.roles { SuperusersAfter(s.db, s'.db, h.target, User); }
    forall q | q in s'.procs ensures ProcOk(s'.db, q, s'.procs[q]) {
      assert ProcOk(s.db, q, s.procs[q]);
    }
    forall i | 0 <= i < |s'.db.log| ensures EventOk(s'.db, s'.db.log[i]) {
      EventStays(s.db, s'.db, s.db.log[i]);
    }
  }

  /** The other statements change no role and no session. */
  predicate Quiet(h: Handler) {
    !h.SetCommit? && !h.VerifyUpdate?
  }

  lemma QuietTables(s: State, p: Pid)
    requires Inv(s) && p in s.procs && Quiet(s.procs[p])
    ensures var db' := Advance(s, p).db;
      && db'.roles == s.db.roles && db'.sessions == s.db.sessions && db'.ever == s.db.ever
      && Superusers(db') == Superusers(s.db)
      && s.db.log <= db'.log
      && (forall i | |s.db.log| <= i < |db'.log| :: EventOk(db', db'.log[i]))
  {
    assert ProcOk(s.db, p, s.procs[p]);
  }

  lemma QuietOthers(s: State, p: Pid, q: Pid)
    requires Inv(s) && p in s.procs && Quiet(s.procs[p]) && q in s.procs && q != p
    ensures var s' := Advance(s, p); s'.procs[q] == s.procs[q] && ProcOk(s'.db, q, s'.procs[q])
  {
    QuietTables(s, p);
    assert ProcOk(s.db, p, s.procs[p]) && ProcOk(s.db, q, s.procs[q]);
  }

  lemma QuietOwn(s: State, p: Pid)
    requires Inv(s) && p in s.procs && Quiet(s.procs[p])
    ensures var s' := Advance(s, p); ProcOk(s'.db, p, s'.procs[p])
  {
    assert ProcOk(s.db, p, s.procs[p]);
    assert Superusers(Advance(s, p).db) == Superusers(s.db) by { QuietTables(s, p); }
  }

  lemma QuietLocks(s: State, p: Pid)
    requires Inv(s) && p in s.procs && Quiet(s.procs[p])
    ensures var s' := Advance(s, p);
      && (s'.db.lock.Some? ==> s'.db.lock.value in s'.procs)
      && (forall u | u in s'.db.rowLocks :: s'.db.rowLocks[u] in s'.procs)
      && (forall u | u in s'.db.rowLocks ::
          HoldsRow(s'.procs[s'.db.rowLocks[u]]) && s'.procs[s'.db.rowLocks[u]].target == u)
  {
    assert ProcOk(s.db, p, s.procs[p]);
  }

  lemma QuietKeeps(s: State, p: Pid)
    requires Inv(s) && p in s.procs && Quiet(s.procs[p])
    ensures Inv(Advance(s, p))
  {
    var s' := Advance(s, p);
    QuietTables(s, p);
    QuietLocks(s, p);
    forall q | q in s'.procs ensures ProcOk(s'.db, q, s'.procs[q]) {
      if q == p { QuietOwn(s, p); } else { QuietOthers(s, p, q); }
    }
    forall i | 0 <= i < |s'.db.log| ensures EventOk(s'.db, s'.db.log[i]) {
      if i < |s.db.log| {
        assert s'.db.log[i] == s.db.log[i];
        EventStays(s.db, s'.db, s.db.log[i]);
      }
    }
  }

  lemma OutsideKeeps(s: State, a: Action)
    requires Inv(s) && !a.Step?
    ensures Inv(Apply(s, a))
  {
    var s' := Apply(s, a);
    assert Superusers(s'.db) == Superusers(s.db);
    OutsideKeepsProcs(s, a);
    forall i | 0 <= i < |s'.db.log| ensures EventOk(s'.db, s'.db.log[i]) {
      EventStays(s.db, s'.db, s.db.log[i]);
    }
  }

  lemma OutsideKeepsProcs(s: State, a: Action)
    requires Inv(s) && !a.Step? && Superusers(Apply(s, a).db) == Superusers(s.db)
    ensures var s' := Apply(s, a); forall q | q in s'.procs :: ProcOk(s'.db, q, s'.procs[q])
  {
    var s' := Apply(s, a);
    forall q | q in s'.procs ensures ProcOk(s'.db, q, s'.procs[q]) {
      if q in s.procs { assert ProcOk(s.db, q, s.procs[q]); }
    }
  }

  lemma ApplyKeeps(s: State, a: Action)
    requires Inv(s)
    ensures Inv(Apply(s, a))
  {
    if !a.Step? { OutsideKeeps(s, a); }
    else if a.pid in s.procs {
      if s.procs[a.pid].SetCommit? { CommitKeeps(s, a.pid); }
      else if s.procs[a.pid].VerifyUpdate? { VerifyKeeps(s, a.pid); }
      else { QuietKeeps(s, a.pid); }
    }
  }

  lemma {:induction false} RunKeeps(s: State, schedule: seq<Action>)
    requires Inv(s)
    ensures Inv(Run(s, schedule))
    decreases |schedule|
  {
    if schedule != [] {
      ApplyKeeps(s, schedule[0]);
      RunKeeps(Apply(s, schedule[0]), schedule[1..]);
    }
  }

  ghost predicate Reachable(s: State) {
    exists init, schedule :: Initial(init) && s == Run(init, schedule)
  }

  lemma ReachableOk(s: State)
    requires Reachable(s)
    ensures Inv(s)
  {
    var init, schedule :| Initial(init) && s == Run(init, schedule);
    RunKeeps(init, schedule);
  }

  // ======== the guarantees ======================================================================

  /** Starting with at least one, every interleaving of any number of role
      changes (rolled back anywhere), verifications, profile edits,
      registrations and sign-ins keeps at least one committed superuser. */
  lemma AlwaysASuperuser(s: State)
    requires Reachable(s)
    ensures exists u :: u in s.db.roles && s.db.roles[u] == Superuser
  {
    ReachableOk(s);
    var u :| u in Superusers(s.db);
  }

  /** A setRole about to commit overwrites the role it read; only a target
      read as `new` may meanwhile have been verified to `user`. Committing
      writes the new role, and on a demotion from the role read deletes every
      session its DELETE found; otherwise it deletes none. */
  lemma CommitMeaning(init: State, schedule: seq<Action>, p: Pid)
    requires Initial(init)
    requires var s := Run(init, schedule); p in s.procs && s.procs[p].SetCommit?
    ensures var s := Run(init, schedule); var h := s.procs[p]; var db' := Advance(s, p).db;
      && h.target in s.db.roles
      && (s.db.roles[h.target] == h.read || (h.read == New && s.db.roles[h.target] == User))
      && (h.read == Admin || h.read == Superuser ==> s.db.roles[h.target] == h.read)
      && db'.roles == s.db.roles[h.target := h.to]
      && (Lowers(h.read, h.to) ==>
            && h.revoked.Some?
            && Found(init, schedule, p, SetDelete(h.target, h.to, h.read), h.revoked.value)
            && db'.sessions == s.db.sessions - h.revoked.value)
      && (!Lowers(h.read, h.to) ==> db'.sessions == s.db.sessions)
  {
    var s := Run(init, schedule);
    RunKeeps(init, schedule);
    assert ProcOk(s.db, p, s.procs[p]);
    AllFound(init, schedule);
    assert CommitFound(init, schedule, p, s.procs[p]);
  }

  lemma {:induction false} RunSnoc(s: State, schedule: seq<Action>, a: Action)
    ensures Run(s, schedule + [a]) == Apply(Run(s, schedule), a)
    decreases |schedule|
  {
    if schedule == [] {
      assert (schedule + [a])[1..] == [];
    } else {
      assert (schedule + [a])[1..] == schedule[1..] + [a];
      RunSnoc(Apply(s, schedule[0]), schedule[1..], a);
    }
  }

  /** The k-th action of the schedule was p's DELETE for a demotion, and it found
      `rows`: all the target's sessions at that moment. */
  ghost predicate FoundAt(init: State, schedule: seq<Action>, k: int, p: Pid, h: Handler, rows: set<Token>) {
    0 <= k < |schedule| && schedule[k] == Step(p) && h.SetDelete?
    && var r := Run(init, schedule[..k]);
    p in r.procs && r.procs[p] == h && rows == SessionsOf(r.db, h.target)
  }

  ghost predicate Found(init: State, schedule: seq<Action>, p: Pid, h: Handler, rows: set<Token>) {
    exists k :: FoundAt(init, schedule, k, p, h, rows)
  }

  ghost predicate CommitFound(init: State, schedule: seq<Action>, p: Pid, h: Handler) {
    h.SetCommit? && h.revoked.Some? ==> Found(init, schedule, p, SetDelete(h.target, h.to, h.read), h.revoked.value)
  }

  ghost predicate EventFound(init: State, schedule: seq<Action>, e: Event) {
    e.RoleSet? && e.revoked.Some? ==> Found(init, schedule, e.pid, SetDelete(e.target, e.to, e.read), e.revoked.value)
  }

  lemma FoundStays(init: State, schedule: seq<Action>, a: Action, p: Pid, h: Handler, rows: set<Token>)
    requires Found(init, schedule, p, h, rows)
    ensures Found(init, schedule + [a], p, h, rows)
  {
    var k :| FoundAt(init, schedule, k, p, h, rows);
    assert (schedule + [a])[..k] == schedule[..k] && (schedule + [a])[k] == schedule[k];
    assert FoundAt(init, schedule + [a], k, p, h, rows);
  }

  lemma FoundNow(init: State, schedule: seq<Action>, a: Action, p: Pid)
    requires a == Step(p)
    requires var s := Run(init, schedule); p in s.procs && s.procs[p].SetDelete?
    ensures var s := Run(init, schedule);
      Found(init, schedule + [a], p, s.procs[p], SessionsOf(s.db, s.procs[p].target))
  {
    var s := Run(init, schedule);
    assert (schedule + [a])[..|schedule|] == schedule;
    assert FoundAt(init, schedule + [a], |schedule|, p, s.procs[p], SessionsOf(s.db, s.procs[p].target));
  }

  /** What one action does to the transactions about to commit and to the log. */
  lemma CommitsCameFrom(s: State, a: Action, p: Pid)
    requires p in Apply(s, a).procs && Apply(s, a).procs[p].SetCommit? && Apply(s, a).procs[p].revoked.Some?
    ensures p in s.procs
    ensures var h' := Apply(s, a).procs[p];
      || s.procs[p] == h'
      || (a == Step(p) && s.procs[p] == SetDelete(h'.target, h'.to, h'.read)
          && h'.revoked.value == SessionsOf(s.db, h'.target))
  {
  }

  lemma EventCameFrom(s: State, a: Action, e: Event)
    requires e in Apply(s, a).db.log
    ensures e in s.db.log || !e.RoleSet?
        || (e.pid in s.procs && s.procs[e.pid] == SetCommit(e.target, e.to, e.read, e.revoked))
  {
    if a.Step? && a.pid in s.procs { AdvanceLogged(s, a.pid, e); }
  }

  lemma AdvanceLogged(s: State, p: Pid, e: Event)
    requires p in s.procs && e in Advance(s, p).db.log
    ensures e in s.db.log || !e.RoleSet? || (e.pid == p && s.procs[p] == SetCommit(e.target, e.to, e.read, e.revoked))
  {
  }

  lemma {:induction false} AllFound(init: State, schedule: seq<Action>)
    requires init.procs == map[] && init.db.log == []
    ensures forall p | p in Run(init, schedule).procs :: CommitFound(init, schedule, p, Run(init, schedule).procs[p])
    ensures forall e | e in Run(init, schedule).db.log :: EventFound(init, schedule, e)
    decreases |schedule|
  {
    if schedule != [] {
      var before, a := schedule[..|schedule| - 1], schedule[|schedule| - 1];
      assert schedule == before + [a];
      var s := Run(init, before);
      AllFound(init, before);
      RunSnoc(init, before, a);
      var s' := Apply(s, a);
      forall p | p in s'.procs ensures CommitFound(init, schedule, p, s'.procs[p]) {
        if s'.procs[p].SetCommit? && s'.procs[p].revoked.Some? { CommitFoundNext(init, before, a, p); }
      }
      EventsFoundNext(init, before, a);
    }
  }

  lemma EventsFoundNext(init: State, before: seq<Action>, a: Action)
    requires var s := Run(init, before);
      && (forall p | p in s.procs :: CommitFound(init, before, p, s.procs[p]))
      && (forall e | e in s.db.log :: EventFound(init, before, e))
    ensures forall e | e in Apply(Run(init, before), a).db.log :: EventFound(init, before + [a], e)
  {
    var s := Run(init, before);
    forall e | e in Apply(s, a).db.log ensures EventFound(init, before + [a], e) {
      EventCameFrom(s, a, e);
      EventFoundNext(init, before, a, e);
    }
  }

  lemma EventFoundNext(init: State, before: seq<Action>, a: Action, e: Event)
    requires EventFound(init, before, e)
    ensures EventFound(init, before + [a], e)
  {
    if e.RoleSet? && e.revoked.Some? {
      FoundStays(init, before, a, e.pid, SetDelete(e.target, e.to, e.read), e.revoked.value);
    }
  }

  lemma CommitFoundNext(init: State, before: seq<Action>, a: Action, p: Pid)
    requires var s' := Apply(Run(init, before), a); p in s'.procs && s'.procs[p].SetCommit? && s'.procs[p].revoked.Some?
    requires var s := Run(init, before); p in s.procs ==> CommitFound(init, before, p, s.procs[p])
    ensures CommitFound(init, before + [a], p, Apply(Run(init, before), a).procs[p])
  {
    var s := Run(init, before);
    CommitsCameFrom(s, a, p);
    var h' := Apply(s, a).procs[p];
    if s.procs[p] == h' {
      FoundStays(init, before, a, p, SetDelete(h'.target, h'.to, h'.read), h'.revoked.value);
    } else {
      FoundNow(init, before, a, p);
    }
  }

  /** The sessions a committed demotion revoked are exactly those its target had
      when its DELETE ran, at some earlier moment of the run; and all of
      them are gone. */
  lemma RevokesWhatItFound(init: State, schedule: seq<Action>, i: nat)
    requires Initial(init) && i < |Run(init, schedule).db.log|
    requires var e := Run(init, schedule).db.log[i]; e.RoleSet? && e.revoked.Some?
    ensures var s := Run(init, schedule); var e := s.db.log[i];
      && Found(init, schedule, e.pid, SetDelete(e.target, e.to, e.read), e.revoked.value)
      && e.revoked.value !! s.db.sessions.Keys
  {
    AllFound(init, schedule);
    var s := Run(init, schedule);
    RunKeeps(init, schedule);
    assert EventOk(s.db, s.db.log[i]);
    assert EventFound(init, schedule, s.db.log[i]);
  }

  /** Revoked sessions never come back: a token a committed demotion deleted
      names no session in any later state. */
  lemma RevokedStayRevoked(s: State, i: nat, t: Token)
    requires Reachable(s) && i < |s.db.log| && s.db.log[i].RoleSet?
    requires s.db.log[i].revoked.Some? && t in s.db.log[i].revoked.value
    ensures t !in s.db.sessions
  {
    ReachableOk(s);
    assert EventOk(s.db, s.db.log[i]);
  }

  /** A commit revokes sessions exactly when it lowers the role it overwrites,
      except in one case, and then never: the target was read as `new`, is set
      to `new`, and was verified to `user` in between. A change to any other
      role, or of a target not read as `new`, is therefore always exact. */
  lemma RevokesExactlyOnDemotion(s: State, i: nat)
    requires Reachable(s) && i < |s.db.log| && s.db.log[i].RoleSet?
    ensures var e := s.db.log[i];
      && (e.revoked.Some? <==> Lowers(e.read, e.to))
      && ((e.revoked.Some? <==> Lowers(e.overwritten, e.to)) <==>
          !(e.read == New && e.to == New && e.overwritten == User))
  {
    ReachableOk(s);
    assert EventOk(s.db, s.db.log[i]);
  }

  /** updateMemberForViewer: when an edit commits, its target's committed role
      is still within the viewer's scope, whatever role changes ran meanwhile. */
  lemma EditsStayInScope(s: State, p: Pid)
    requires Reachable(s) && p in s.procs && (s.procs[p].EditWrite? || s.procs[p].EditCommit?)
    ensures s.procs[p].target in s.db.roles && InScope(s.procs[p].viewerLevel, s.db.roles[s.procs[p].target])
  {
    ReachableOk(s);
    assert ProcOk(s.db, p, s.procs[p]);
  }

  /** At most one role change is past the lock at a time. */
  lemma RoleChangesSerialised(s: State, p: Pid, q: Pid)
    requires Reachable(s) && p in s.procs && q in s.procs
    requires InRoleTx(s.procs[p]) && InRoleTx(s.procs[q])
    ensures p == q
  {
    ReachableOk(s);
    assert ProcOk(s.db, p, s.procs[p]) && ProcOk(s.db, q, s.procs[q]);
  }

  // ---- the exceptional case happens ----------------------------------------------------------

  lemma ReachableStep(s: State, a: Action)
    requires Reachable(s)
    ensures Reachable(Apply(s, a))
  {
    var init, schedule :| Initial(init) && s == Run(init, schedule);
    RunSnoc(init, schedule, a);
  }

  /** Superuser 5; member 7 with one session, 9. */
  function Scene(role: Role, locks: (Option<Pid>, map<UserId, Pid>), log: seq<Event>, procs: map<Pid, Handler>): State {
    State(Db(map[5 := Superuser, 7 := role], map[9 := 7], locks.0, locks.1, {9}, log), procs)
  }

  /** A role change of 7 to `new` takes the lock and reads `new`. */
  lemma SceneRead(s: State)
    requires s == Scene(New, (None, map[]), [], map[]) && Reachable(s)
    ensures Reachable(Scene(New, (Some(1), map[]), [], map[1 := SetUpdate(7, New, New)]))
  {
    var s1 := Scene(New, (None, map[]), [], map[1 := SetLock(7, New)]);
    var s2 := Scene(New, (Some(1), map[]), [], map[1 := SetRead(7, New)]);
    assert Apply(s, Arrive(1, SetLock(7, New))) == s1;
    assert Apply(s1, Step(1)) == s2;
    assert Apply(s2, Step(1)) == Scene(New, (Some(1), map[]), [], map[1 := SetUpdate(7, New, New)]);
    ReachableStep(s, Arrive(1, SetLock(7, New)));
    ReachableStep(s1, Step(1));
    ReachableStep(s2, Step(1));
  }

  /** An administrator verifies 7. */
  lemma SceneVerify(s: State, h: Handler)
    requires h == SetUpdate(7, New, New)
    requires s == Scene(New, (Some(1), map[]), [], map[1 := h]) && Reachable(s)
    ensures Reachable(Scene(User, (Some(1), map[]), [], map[1 := h, 2 := Finished(Verified)]))
  {
    var s1 := Scene(New, (Some(1), map[]), [], map[1 := h, 2 := VerifyFetch(3, 7)]);
    assert Apply(s, Arrive(2, VerifyFetch(3, 7))) == s1;
    ReachableStep(s, Arrive(2, VerifyFetch(3, 7)));
    SceneVerifySteps(s1, h);
  }

  lemma SceneVerifySteps(s1: State, h: Handler)
    requires h == SetUpdate(7, New, New)
    requires s1 == Scene(New, (Some(1), map[]), [], map[1 := h, 2 := VerifyFetch(3, 7)]) && Reachable(s1)
    ensures Reachable(Scene(User, (Some(1), map[]), [], map[1 := h, 2 := Finished(Verified)]))
  {
    var s2 := Scene(New, (Some(1), map[]), [], map[1 := h, 2 := VerifyUpdate(3, 7)]);
    assert Apply(s1, Step(2)) == s2;
    assert Apply(s2, Step(2)) == Scene(User, (Some(1), map[]), [], map[1 := h, 2 := Finished(Verified)]);
    ReachableStep(s1, Step(2));
    ReachableStep(s2, Step(2));
  }

  /** A superuser resets a `new` member to `new` while an administrator
      verifies them: the member ends up lowered from `user` to `new`, and the
      session they had is still there. */
  lemma LoweredWithoutRevoking() returns (s: State)
    ensures Reachable(s)
    ensures s.db.log == [RoleSet(1, 7, New, User, New, None)]
    ensures s.db.roles == map[5 := Superuser, 7 := New] && s.db.sessions == map[9 := 7]
  {
    var init := Scene(New, (None, map[]), [], map[]);
    SceneInitial(init);
    SceneRead(init);
    var h := SetUpdate(7, New, New);
    SceneVerify(Scene(New, (Some(1), map[]), [], map[1 := h]), h);
    s := SceneCommit(Scene(User, (Some(1), map[]), [], map[1 := h, 2 := Finished(Verified)]));
  }

  lemma SceneInitial(init: State)
    requires init == Scene(New, (None, map[]), [], map[])
    ensures Reachable(init)
  {
    assert Superusers(init.db) == {5};
    assert Initial(init) && init == Run(init, []);
  }

  lemma SceneCommit(s1: State) returns (s: State)
    requires s1 == Scene(User, (Some(1), map[]), [], map[1 := SetUpdate(7, New, New), 2 := Finished(Verified)])
    requires Reachable(s1)
    ensures Reachable(s)
    ensures s.db.log == [RoleSet(1, 7, New, User, New, None)]
    ensures s.db.roles == map[5 := Superuser, 7 := New] && s.db.sessions == map[9 := 7]
  {
    var s2 := Scene(User, (Some(1), map[7 := 1]), [], map[1 := SetCommit(7, New, New, None), 2 := Finished(Verified)]);
    assert Apply(s1, Step(1)) == s2;
    ReachableStep(s1, Step(1));
    s := Apply(s2, Step(1));
    ReachableStep(s2, Step(1));
  }
}
