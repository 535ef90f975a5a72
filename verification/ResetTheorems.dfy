/** The guarantees of the password-reset protocol, over every schedule of any
    number of issuing and confirming requests. */
module ResetTheorems {
  import opened Ids
  import opened ResetDb
  import opened ResetInvariant

  ghost predicate Reachable(s: State) {
    exists init, schedule :: Fresh(init) && s == Run(init, schedule)
  }

  lemma ReachableOk(s: State)
    requires Reachable(s)
    ensures Inv(s)
  {
    var init, schedule :| Fresh(init) && s == Run(init, schedule);
    FreshOk(init);
    RunKeeps(init, schedule);
  }

  // ---- the retry bound -------------------------------------------------------------------

  ghost predicate CalledFor(log: seq<Event>, p: Pid, u: UserId) {
    exists i :: BeganAt(log, i, p, u)
  }

  /** Call p has begun and not returned when the log is k events long. */
  ghost predicate ActiveAt(log: seq<Event>, k: int, p: Pid) {
    && (exists i, u :: i < k && BeganAt(log, i, p, u))
    && (forall i | 0 <= i < k && i < |log| :: log[i] != Ended(p))
  }

  ghost predicate Overlap(log: seq<Event>, p: Pid, q: Pid) {
    exists k | 0 <= k <= |log| :: ActiveAt(log, k, p) && ActiveAt(log, k, q)
  }

  /** The call that made the insert at b, found in the way of a call p for the
      same user that has not returned by then, overlaps p. */
  lemma InserterOverlaps(s: State, p: Pid, u: UserId, began: nat, b: nat)
    requires Inv(s) && BeganAt(s.db.log, began, p, u) && began < b && InsertedAt(s.db.log, b, u)
    requires forall i | 0 <= i < b :: s.db.log[i] != Ended(p)
    ensures var q := s.db.log[b].pid; CalledFor(s.db.log, q, u) && CalledFor(s.db.log, p, u) && Overlap(s.db.log, p, q)
  {
    var log := s.db.log;
    var t := log[b].token;
    var q := log[b].pid;
    assert EventOk(s.db, b) && BirthOk(s.db, t);
    assert BeganAt(log, s.db.birth[t].began, q, u);
    forall i | 0 <= i < b ensures log[i] != Ended(q) {
      assert ByRequest(log[b], q);
    }
    assert ActiveAt(log, b, p) && ActiveAt(log, b, q);
  }

  /** Each failed insert has its own cause: when the INSERT of a call finds a
      unique violation, the row in the way was inserted, since that call began, by
      another call for the same user that overlaps it, and by none of the calls
      that blocked its earlier attempts. */
  lemma EachFailureHasItsOwnCause(s: State, p: Pid, draw: Token, b: nat)
    requires Reachable(s) && p in s.procs && s.procs[p].IssueInsert?
    requires Exec(s.db, p, Next(s.procs[p], draw)).1 == Violation(b)
    ensures var c := s.procs[p].call;
      && c.began < b && InsertedAt(s.db.log, b, c.user)
      && var q := s.db.log[b].pid;
      && q != p && CalledFor(s.db.log, q, c.user) && CalledFor(s.db.log, p, c.user) && Overlap(s.db.log, p, q)
      && forall k | 0 <= k < |c.blocks| :: InsertedAt(s.db.log, c.blocks[k], c.user) && s.db.log[c.blocks[k]].pid != q
  {
    ReachableOk(s);
    var c := s.procs[p].call;
    StillInserting(s, p);
    ViolatedCall(s, p, draw, b);
    var again := c.blocks + [b];
    assert again[|c.blocks|] == b;
    InserterOverlaps(s, p, c.user, c.began, b);
    forall k | 0 <= k < |c.blocks|
      ensures InsertedAt(s.db.log, c.blocks[k], c.user) && s.db.log[c.blocks[k]].pid != s.db.log[b].pid
    {
      assert again[k] == c.blocks[k] && c.blocks[k] < b;
      assert Excludes(s.db.log[c.blocks[k]], s.db.log[b]);
    }
  }

  lemma StillInserting(s: State, p: Pid)
    requires Inv(s) && p in s.procs && s.procs[p].IssueInsert?
    ensures forall i | 0 <= i < |s.db.log| ::
        s.db.log[i] != Ended(p) && (s.db.log[i].Inserted? ==> s.db.log[i].pid != p)
  {
    forall i | 0 <= i < |s.db.log|
      ensures s.db.log[i] != Ended(p) && (s.db.log[i].Inserted? ==> s.db.log[i].pid != p)
    {
      assert StageOk(s, s.db.log[i]);
    }
  }

  lemma ViolatedCall(s: State, p: Pid, draw: Token, b: nat)
    requires Inv(s) && p in s.procs && s.procs[p].IssueInsert?
    requires Exec(s.db, p, Next(s.procs[p], draw)).1 == Violation(b)
    ensures var c := s.procs[p].call; CallOk(s.db, p, c.(blocks := c.blocks + [b]))
  {
    var h := s.procs[p];
    assert ProcOk(s.db, p, h);
    StillInserting(s, p);
    ViolationOk(s.db, p, h.call, h.since, h.token, h.expires);
  }

  ghost predicate EndedBefore(log: seq<Event>, q: Pid, k: int) {
    exists i | 0 <= i < k && i < |log| :: log[i] == Ended(q)
  }

  /** Call q inserts a token for u at b, while call p for u is running. */
  ghost predicate InsertsDuring(log: seq<Event>, p: Pid, q: Pid, u: UserId, b: int) {
    InsertedAt(log, b, u) && log[b].pid == q && !EndedBefore(log, p, b) && CalledBefore(log, p, u, b)
  }

  /** Call q for u overlaps call p and inserts a token during it. */
  ghost predicate InTheWay(log: seq<Event>, p: Pid, q: Pid, u: UserId) {
    CalledFor(log, q, u) && Overlap(log, p, q) && exists b :: InsertsDuring(log, p, q, u, b)
  }

  lemma NotEndedAtBlock(s: State, p: Pid, c: Call, k: nat)
    requires Inv(s) && p in s.procs && s.procs[p] == Finished(Contention(c)) && k < |c.blocks|
    ensures CallOk(s.db, p, c)
    ensures forall i | 0 <= i < |s.db.log| && i < c.blocks[k] :: s.db.log[i] != Ended(p)
  {
    assert ProcOk(s.db, p, s.procs[p]);
    forall i | 0 <= i < |s.db.log| && i < c.blocks[k] ensures s.db.log[i] != Ended(p) {
      assert s.db.log[i].Ended? ==> ReturnedAfterBlocks(s, s.db.log[i].pid, i);
    }
  }

  /** The k-th block of a call that reported contention. */
  lemma BlockerOverlaps(s: State, p: Pid, c: Call, k: nat)
    requires Inv(s) && p in s.procs && s.procs[p] == Finished(Contention(c))
    requires k < |c.blocks|
    ensures InsertedAt(s.db.log, c.blocks[k], c.user)
    ensures var q := s.db.log[c.blocks[k]].pid;
      q != p && InTheWay(s.db.log, p, q, c.user)
  {
    NotEndedAtBlock(s, p, c, k);
    var b := c.blocks[k];
    InserterOverlaps(s, p, c.user, c.began, b);
    assert InsertsDuring(s.db.log, p, s.db.log[b].pid, c.user, b) by {
      assert BeganAt(s.db.log, c.began, p, c.user);
    }
  }

  /** If at most two other calls for the same user overlap it and insert during
      it, a call never reports "supersede contention": three attempts are enough. */
  lemma RetryBound(s: State, p: Pid, u: UserId, others: set<Pid>)
    requires Reachable(s) && p in s.procs && CalledFor(s.db.log, p, u)
    requires forall q | q != p && InTheWay(s.db.log, p, q, u) :: q in others
    requires |others| <= 2
    ensures !(s.procs[p].Finished? && s.procs[p].response.Contention?)
  {
    ReachableOk(s);
    if s.procs[p].Finished? && s.procs[p].response.Contention? {
      var c := s.procs[p].response.call;
      assert ProcOk(s.db, p, s.procs[p]);
      SameUser(s, p, u, c.user);
      ThreeBlockers(s, p, c, others);
      assert false;
    }
  }

  lemma BlockerIsOther(s: State, p: Pid, c: Call, k: nat, others: set<Pid>)
    requires Inv(s) && p in s.procs && s.procs[p] == Finished(Contention(c)) && k < |c.blocks|
    requires forall q | q != p && InTheWay(s.db.log, p, q, c.user) :: q in others
    ensures InsertedAt(s.db.log, c.blocks[k], c.user) && s.db.log[c.blocks[k]].pid in others
  {
    BlockerOverlaps(s, p, c, k);
  }

  lemma ThreeBlockers(s: State, p: Pid, c: Call, others: set<Pid>)
    requires Inv(s) && p in s.procs && s.procs[p] == Finished(Contention(c)) && |c.blocks| == 3
    requires CallOk(s.db, p, c)
    requires forall q | q != p && InTheWay(s.db.log, p, q, c.user) :: q in others
    ensures |others| >= 3
  {
    BlockerIsOther(s, p, c, 0, others);
    BlockerIsOther(s, p, c, 1, others);
    BlockerIsOther(s, p, c, 2, others);
    DistinctInserts(s.db.log, c.blocks[0], c.blocks[1], c.blocks[2], others);
  }

  lemma DistinctInserts(log: seq<Event>, i: nat, j: nat, k: nat, others: set<Pid>)
    requires OncePerRequest(log) && i < j < k < |log|
    requires log[i].Inserted? && log[j].Inserted? && log[k].Inserted?
    requires log[i].pid in others && log[j].pid in others && log[k].pid in others
    ensures |others| >= 3
  {
    assert Excludes(log[i], log[j]) && Excludes(log[j], log[k]) && Excludes(log[i], log[k]);
    AtLeastThree(log[i].pid, log[j].pid, log[k].pid, others);
  }

  lemma AtLeastThree(x: Pid, y: Pid, z: Pid, within: set<Pid>)
    requires x != y && y != z && x != z && {x, y, z} <= within
    ensures |within| >= 3
  {
    assert |within - {x} - {y} - {z}| == |within| - 3;
  }

  lemma SameUser(s: State, p: Pid, u: UserId, v: UserId)
    requires Inv(s) && CalledFor(s.db.log, p, u) && CalledFor(s.db.log, p, v)
    ensures u == v
  {
    var i :| BeganAt(s.db.log, i, p, u);
    var j :| BeganAt(s.db.log, j, p, v);
    assert OneCall(s.db.log);
  }

  // ---- quiescence ------------------------------------------------------------------------

  ghost predicate OnlyToken(db: Db, t: Token, u: UserId) {
    Unconsumed(db, t, u) && forall t' | Unconsumed(db, t', u) :: t' == t
  }

  lemma AtMostOneToken(s: State, u: UserId)
    requires Inv(s)
    ensures forall t1, t2 | Unconsumed(s.db, t1, u) && Unconsumed(s.db, t2, u) :: t1 == t2
  {
    assert forall t | Unconsumed(s.db, t, u) :: Open(s.db, t);
  }

  /** At every moment a user has at most one unconsumed token, and has one
      exactly when nothing has deleted or consumed a token of theirs, or erased
      them, since their last insert. */
  lemma LiveTokenExactly(s: State, u: UserId)
    requires Reachable(s)
    ensures forall t1, t2 | Unconsumed(s.db, t1, u) && Unconsumed(s.db, t2, u) :: t1 == t2
    ensures (exists t :: Unconsumed(s.db, t, u)) <==>
        (exists i :: InsertedAt(s.db.log, i, u) && CalmSince(s.db.log, i, u))
  {
    ReachableOk(s);
    AtMostOneToken(s, u);
    if t :| Unconsumed(s.db, t, u) {
      assert Open(s.db, t) && BirthOk(s.db, t);
      assert InsertedAt(s.db.log, s.db.birth[t].at, u);
    }
  }

  /** Unless a token of the user was consumed since the last DELETE for them, or
      they were erased, an unconsumed token is stored, or the call that ran that
      DELETE is on its way to its INSERT, or that call failed. */
  lemma LiveTokenOrPendingInsert(s: State, u: UserId, d: int)
    requires Reachable(s) && LastDelete(s.db.log, d, u)
    ensures (exists t :: Unconsumed(s.db, t, u)) || OnItsWay(s, s.db.log[d].pid, u)
  {
    ReachableOk(s);
    if i :| d < i && InsertedAt(s.db.log, i, u) {
      assert CalmSince(s.db.log, i, u);
    } else {
      assert NoInsertSince(s.db.log, d, u);
    }
  }

  /** The call of the last DELETE for u is over, or at least past its INSERT. */
  predicate PastInsert(s: State, p: Pid, u: UserId) {
    p in s.procs && !Between(s.procs[p], u)
  }

  /** Once that call is no longer on its way, u has no unconsumed token if and
      only if it failed and nobody inserted since. */
  lemma NothingLeftExactly(s: State, u: UserId, d: int)
    requires Reachable(s) && LastDelete(s.db.log, d, u) && PastInsert(s, s.db.log[d].pid, u)
    ensures (forall t :: !Unconsumed(s.db, t, u)) <==>
        FailedIssue(s.procs[s.db.log[d].pid]) && NoInsertSince(s.db.log, d, u)
  {
    ReachableOk(s);
    if NoInsertSince(s.db.log, d, u) {
      NobodyInTheWay(s.db, d, u);
      forall t ensures !Unconsumed(s.db, t, u) { assert t !in Blockers(s.db, u); }
      assert OnItsWay(s, s.db.log[d].pid, u);
    } else {
      var i :| d < i && InsertedAt(s.db.log, i, u);
      assert CalmSince(s.db.log, i, u);
    }
  }

  /** Some token is left: not (failed and nobody inserted since). */
  ghost predicate Settled(s: State, u: UserId, d: int) {
    && LastDelete(s.db.log, d, u) && PastInsert(s, s.db.log[d].pid, u)
    && !(FailedIssue(s.procs[s.db.log[d].pid]) && NoInsertSince(s.db.log, d, u))
  }

  /** The call has its token, and has returned it or is about to. */
  predicate HasIssued(s: State, p: Pid, t: Token) {
    p in s.procs && (s.procs[p] == IssueReturn(Issued(t)) || s.procs[p] == Finished(Issued(t)))
  }

  /** In every other case exactly one unconsumed token is left: the one of the
      last successful insert, which its call returned or is about to. */
  lemma Quiescence(s: State, u: UserId, d: int) returns (t: Token)
    requires Reachable(s) && Settled(s, u, d)
    ensures OnlyToken(s.db, t, u)
    ensures t in s.db.birth && InsertedAt(s.db.log, s.db.birth[t].at, u) && d < s.db.birth[t].at
    ensures s.db.log[s.db.birth[t].at].token == t
    ensures forall i | InsertedAt(s.db.log, i, u) :: i <= s.db.birth[t].at
    ensures HasIssued(s, s.db.birth[t].pid, t)
  {
    NothingLeftExactly(s, u, d);
    ReachableOk(s);
    AtMostOneToken(s, u);
    t :| Unconsumed(s.db, t, u);
    assert Open(s.db, t) && BirthOk(s.db, t);
    assert StageOk(s, s.db.log[s.db.birth[t].at]);
    assert CalmSince(s.db.log, s.db.birth[t].at, u);
    assert Disturbs(s.db.log[d], u);
  }

  /** A token handed out is valid exactly as long as nothing has deleted or
      consumed a token of its user, or erased them, since its insert. */
  lemma SurvivesExactly(s: State, u: UserId, p: Pid, mine: Token)
    requires Reachable(s) && HasIssued(s, p, mine) && CalledFor(s.db.log, p, u)
    ensures mine in s.db.birth && InsertedAt(s.db.log, s.db.birth[mine].at, u)
    ensures OnlyToken(s.db, mine, u) <==> CalmSince(s.db.log, s.db.birth[mine].at, u)
  {
    ReachableOk(s);
    IssuedBirth(s, u, p, mine);
    AtMostOneToken(s, u);
    if Unconsumed(s.db, mine, u) { assert Open(s.db, mine); }
  }

  lemma IssuedBirth(s: State, u: UserId, p: Pid, mine: Token)
    requires Inv(s) && HasIssued(s, p, mine) && CalledFor(s.db.log, p, u)
    ensures mine in s.db.birth && s.db.birth[mine].pid == p && InsertedAt(s.db.log, s.db.birth[mine].at, u)
    ensures s.db.log[s.db.birth[mine].at] == Inserted(p, u, mine)
    ensures BeganAt(s.db.log, s.db.birth[mine].began, p, u) && s.db.birth[mine].began < s.db.birth[mine].at
  {
    assert ProcOk(s.db, p, s.procs[p]);
    assert BirthOk(s.db, mine);
    SameUser(s, p, u, s.db.birth[mine].user);
  }

  /** Of the tokens handed out for u, the one still valid is exactly the one
      whose insert came last, once the call of the last DELETE is settled. */
  lemma LastInsertSurvives(s: State, u: UserId, d: int, p: Pid, mine: Token)
    requires Reachable(s) && Settled(s, u, d) && HasIssued(s, p, mine) && CalledFor(s.db.log, p, u)
    ensures mine in s.db.birth
    ensures OnlyToken(s.db, mine, u) <==> forall i | InsertedAt(s.db.log, i, u) :: i <= s.db.birth[mine].at
  {
    ReachableOk(s);
    IssuedBirth(s, u, p, mine);
    var t := Quiescence(s, u, d);
    if forall i | InsertedAt(s.db.log, i, u) :: i <= s.db.birth[mine].at {
      assert s.db.birth[t].at == s.db.birth[mine].at;
    }
  }

  /** No token of u was consumed after the k-th event, nor u erased. */
  ghost predicate UnusedSince(log: seq<Event>, k: int, u: UserId) {
    forall j | k < j < |log| && 0 <= j :: !(log[j].Consumed? && log[j].user == u) && log[j] != Erased(u)
  }

  /** The last request wins when it did not overlap another: if every other call
      for u, failed ones included, had returned before p began, p's token is the
      valid one until it is used. Whatever those left behind, a next request
      heals it. */
  lemma LastRequestWins(s: State, u: UserId, p: Pid, mine: Token, began: nat)
    requires Reachable(s) && HasIssued(s, p, mine) && BeganAt(s.db.log, began, p, u)
    requires forall q | q != p && CalledFor(s.db.log, q, u) :: EndedBefore(s.db.log, q, began)
    requires UnusedSince(s.db.log, began, u)
    ensures OnlyToken(s.db, mine, u)
  {
    ReachableOk(s);
    IssuedBirth(s, u, p, mine);
    var at := s.db.birth[mine].at;
    assert s.db.birth[mine].began == began by { assert OneCall(s.db.log); }
    forall j | at < j < |s.db.log| ensures !Disturbs(s.db.log[j], u) {
      if DeletedFor(s.db.log[j], u) { DeletesComeBefore(s, u, p, mine, began, j); }
    }
    SurvivesExactly(s, u, p, mine);
  }

  lemma DeletesComeBefore(s: State, u: UserId, p: Pid, mine: Token, began: nat, j: nat)
    requires Inv(s) && mine in s.db.birth && began < s.db.birth[mine].at < |s.db.log|
    requires s.db.log[s.db.birth[mine].at] == Inserted(p, u, mine)
    requires j < |s.db.log| && DeletedFor(s.db.log[j], u)
    requires forall q | q != p && CalledFor(s.db.log, q, u) :: EndedBefore(s.db.log, q, began)
    ensures j <= s.db.birth[mine].at
  {
    var q := s.db.log[j].pid;
    assert EventOk(s.db, j);
    var k :| k < j && BeganAt(s.db.log, k, q, u);
    if q == p {
      assert Excludes(s.db.log[s.db.birth[mine].at], s.db.log[j]);
    } else {
      assert CalledFor(s.db.log, q, u);
      var e :| 0 <= e < began && e < |s.db.log| && s.db.log[e] == Ended(q);
      assert ByRequest(s.db.log[j], q);
    }
  }

  // ---- single use ------------------------------------------------------------------------

  /** Every password change by reset is made with a token that was issued to
      that user, consumed by this very request, and consumed before it expired. */
  lemma ChangePaidFor(s: State, i: nat)
    requires Reachable(s)
    requires i < |s.db.log| && s.db.log[i].PasswordSet?
    ensures var e := s.db.log[i];
      && e.token in s.db.birth && s.db.birth[e.token].user == e.user
      && InsertedAt(s.db.log, s.db.birth[e.token].at, e.user)
      && e.consumed < i && ConsumedAt(s.db.log, e.consumed, e.user, e.token)
      && s.db.log[e.consumed].pid == e.pid && s.db.log[e.consumed].at < s.db.birth[e.token].expires
  {
    ReachableOk(s);
    assert EventOk(s.db, i);
    assert EventOk(s.db, s.db.log[i].consumed);
    assert UseOk(s.db, s.db.log[i].token) && BirthOk(s.db, s.db.log[i].token);
  }

  /** And no token makes two of them. */
  lemma SingleUse(s: State, i: nat, j: nat)
    requires Reachable(s)
    requires i < |s.db.log| && j < |s.db.log| && s.db.log[i].PasswordSet? && s.db.log[j].PasswordSet?
    requires s.db.log[i].token == s.db.log[j].token
    ensures i == j
  {
    ReachableOk(s);
    var ei, ej := s.db.log[i], s.db.log[j];
    assert EventOk(s.db, i) && EventOk(s.db, j) && EventOk(s.db, ei.consumed) && EventOk(s.db, ej.consumed);
    assert ei.pid == ej.pid;
    assert i < j ==> Excludes(ei, ej);
    assert j < i ==> Excludes(ej, ei);
  }

  /** A token superseded (or cascaded away) while unconsumed never changes a
      password and is never consumed, in any continuation. */
  lemma SupersededIsDead(s: State, a: Action, schedule: seq<Action>, t: Token)
    requires Reachable(s) && Open(s.db, t) && t !in Apply(s, a).db.tokens
    ensures var log := Run(Apply(s, a), schedule).db.log;
      forall i | 0 <= i < |log| ::
          !(log[i].Consumed? && log[i].token == t) && !(log[i].PasswordSet? && log[i].token == t)
  {
    ReachableOk(s);
    var s1 := Apply(s, a);
    ApplyKeeps(s, a);
    ApplyGrows(s, a);
    VanishedUnused(s, a, t);
    RunKeeps(s1, schedule);
    NeverConsumed(Run(s1, schedule), t);
  }

  lemma NeverConsumed(s: State, t: Token)
    requires Inv(s) && t !in s.db.used
    ensures forall i | 0 <= i < |s.db.log| ::
      !(s.db.log[i].Consumed? && s.db.log[i].token == t) && !(s.db.log[i].PasswordSet? && s.db.log[i].token == t)
  {
    forall i | 0 <= i < |s.db.log|
      ensures !(s.db.log[i].Consumed? && s.db.log[i].token == t)
      ensures !(s.db.log[i].PasswordSet? && s.db.log[i].token == t)
    {
      assert EventOk(s.db, i);
      if s.db.log[i].PasswordSet? { assert EventOk(s.db, s.db.log[i].consumed); }
    }
  }

  lemma VanishedUnused(s: State, a: Action, t: Token)
    requires Inv(s) && Open(s.db, t) && t !in Apply(s, a).db.tokens
    ensures t !in Apply(s, a).db.used
  {
    assert t !in s.db.used;
    if a.Step? && a.pid in s.procs && !s.procs[a.pid].Finished? {
      StatementVanishes(s.db, a.pid, Next(s.procs[a.pid], a.draw), t);
    }
  }

  lemma StatementVanishes(db: Db, p: Pid, stmt: Stmt, t: Token)
    requires t in db.tokens && t !in db.used && t !in Exec(db, p, stmt).0.tokens
    ensures t !in Exec(db, p, stmt).0.used
  {
  }

  // ---- refusals --------------------------------------------------------------------------

  /** classifyToken after a failed consume, whatever ran in between: "invalid"
      exactly when no row is stored, "used" exactly when the stored token was
      consumed, "expired" exactly when it is stored, was never consumed and its
      expiry has passed. */
  lemma RefusalExact(s: State, p: Pid, t: Token)
    requires Reachable(s) && p in s.procs && s.procs[p] == ConfirmClassify(t)
    ensures var refusal := Classify(s.db, t);
      && Exec(s.db, p, FindToken(t)).1 == Found(refusal)
      && (refusal == Invalid <==> t !in s.db.tokens)
      && (refusal == Used <==> t in s.db.tokens && exists i, u :: ConsumedAt(s.db.log, i, u, t))
      && (refusal == Expired <==>
          t in s.db.tokens && s.db.tokens[t].expires <= s.db.now && !exists i, u :: ConsumedAt(s.db.log, i, u, t))
  {
    ReachableOk(s);
    assert ProcOk(s.db, p, s.procs[p]);
    assert UseOk(s.db, t);
    forall i, u | ConsumedAt(s.db.log, i, u, t) ensures t in s.db.used {
      assert EventOk(s.db, i);
    }
  }

  /** After "used" or "expired" no later confirm of that token succeeds; "used"
      was answered after a consume, "expired" of a token nobody ever consumes. */
  lemma RefusalIsFinal(s: State, i: nat, t: Token)
    requires Reachable(s) && i < |s.db.log|
    requires s.db.log[i].Answered? && s.db.log[i].token == t && s.db.log[i].refusal != Invalid
    ensures forall j, u | ConsumedAt(s.db.log, j, u, t) :: s.db.log[i].refusal == Used && j < i
    ensures s.db.log[i].refusal == Used ==> exists j, u :: j < i && ConsumedAt(s.db.log, j, u, t)
  {
    ReachableOk(s);
    assert EventOk(s.db, i) && UseOk(s.db, t);
    forall j, u | ConsumedAt(s.db.log, j, u, t) ensures s.db.log[i].refusal == Used && j < i {
      assert EventOk(s.db, j);
    }
  }
}
