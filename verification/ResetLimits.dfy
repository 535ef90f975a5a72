/** Where the reset protocol's guarantees stop: three overlapping calls can
    exhaust a fourth one's attempts, and the token that stays valid need not be
    the one of the call that began last. */
module ResetLimits {
  import opened Ids
  import opened ResetDb
  import opened ResetTheorems
  import opened ResetInvariant

  lemma {:induction false} RunThenApply(s: State, schedule: seq<Action>, a: Action)
    ensures Run(s, schedule + [a]) == Apply(Run(s, schedule), a)
    decreases |schedule|
  {
    if schedule == [] {
      assert [a][1..] == [];
    } else {
      assert (schedule + [a])[1..] == schedule[1..] + [a];
      RunThenApply(Apply(s, schedule[0]), schedule[1..], a);
    }
  }

  lemma ReachableStep(s: State, a: Action)
    requires Reachable(s)
    ensures Reachable(Apply(s, a))
  {
    var init, schedule :| Fresh(init) && s == Run(init, schedule);
    RunThenApply(init, schedule, a);
  }

  /** What the construction keeps: u has an account, and every token seen so
      far is among `seen`. */
  ghost predicate Scene(s: State, u: UserId, seen: set<Token>) {
    Reachable(s) && u in s.db.passwords && s.db.tokens.Keys <= seen && s.db.issued.Keys <= seen && s.db.presented == {}
  }

  /** The handler h of p takes one step and becomes h'. */
  lemma Steps(s: State, u: UserId, seen: set<Token>, p: Pid, draw: Token)
    requires Scene(s, u, seen) && p in s.procs
    requires s.procs[p].IssueDelete? || s.procs[p].IssueName? || s.procs[p].IssueStamp?
    requires s.procs[p].IssueDelete? ==> s.procs[p].call.user == u
    requires s.procs[p].IssueName? ==> draw !in seen
    ensures var t := Apply(s, Step(p, draw));
      && s.db.log <= t.db.log && Scene(t, u, if s.procs[p].IssueName? then seen + {draw} else seen) && p in t.procs
          && t.procs == s.procs[p := t.procs[p]]
      && (s.procs[p].IssueDelete? ==>
          t.procs[p].IssueName? && t.procs[p].call == s.procs[p].call && Blockers(t.db, u) == {})
      && (s.procs[p].IssueName? ==>
          t.procs[p] == IssueStamp(s.procs[p].call, s.procs[p].since, draw) && t.db.tokens == s.db.tokens
              && t.db.birth == s.db.birth)
      && (s.procs[p].IssueStamp? ==>
          t.procs[p].IssueInsert? && t.procs[p].call == s.procs[p].call && t.procs[p].token == s.procs[p].token
              && t.db.tokens == s.db.tokens && t.db.birth == s.db.birth)
  {
    ReachableStep(s, Step(p, draw));
  }

  lemma Inserts(s: State, u: UserId, seen: set<Token>, p: Pid)
    requires Scene(s, u, seen) && p in s.procs && s.procs[p].IssueInsert? && s.procs[p].call.user == u
    requires s.procs[p].token in seen && s.procs[p].token !in s.db.tokens
    ensures var h, t := s.procs[p], Apply(s, Step(p, 0));
      && s.db.log <= t.db.log && Scene(t, u, seen) && p in t.procs && t.procs == s.procs[p := t.procs[p]]
      && (Blockers(s.db, u) == {} ==>
          t.procs[p] == IssueReturn(Issued(h.token)) && Blockers(t.db, u) == {h.token} && h.token in t.db.birth)
      && (Blockers(s.db, u) != {} && Blockers(s.db, u) <= s.db.birth.Keys ==>
          t.db == s.db && exists i :: t.procs[p] == Blocked(h.call, i))
  {
    var h := s.procs[p];
    ReachableStep(s, Step(p, 0));
    var t := Apply(s, Step(p, 0));
    if Blockers(s.db, u) == {} {
      assert t.db.tokens == s.db.tokens[h.token := TokenRow(u, h.expires, false)];
      assert forall x :: x in Blockers(t.db, u) <==> x == h.token || x in Blockers(s.db, u);
    } else if Blockers(s.db, u) <= s.db.birth.Keys {
      var reply := Exec(s.db, p, Next(h, 0)).1;
      assert reply.Violation?;
      assert t.procs[p] == Blocked(h.call, reply.insert);
    }
  }

  /** Where an insert blocked by the one at i of the log leaves a call. */
  function Blocked(c: Call, i: nat): Handler {
    var again := c.(blocks := c.blocks + [i]);
    if |again.blocks| < MAX_ATTEMPTS then IssueDelete(again) else IssueReturn(Contention(again))
  }

  lemma Arrives(s: State, u: UserId, seen: set<Token>, p: Pid)
    requires Scene(s, u, seen) && p !in s.procs
    ensures var t := Apply(s, ArriveIssue(p, u));
      Scene(t, u, seen) && t.procs == s.procs[p := IssueDelete(Call(u, |s.db.log|, []))]
          && t.db.log == s.db.log + [Began(p, u)]
  {
    ReachableStep(s, ArriveIssue(p, u));
  }

  /** Name and stamp of an attempt whose DELETE has run. */
  lemma Names(s: State, u: UserId, seen: set<Token>, p: Pid, t: Token) returns (r: State)
    requires Scene(s, u, seen) && p in s.procs && s.procs[p].IssueName? && s.procs[p].call.user == u && t !in seen
    ensures Scene(r, u, seen + {t}) && p in r.procs && r.procs == s.procs[p := r.procs[p]]
    ensures r.procs[p].IssueInsert? && r.procs[p].call == s.procs[p].call && r.procs[p].token == t
    ensures t !in r.db.tokens && s.db.log <= r.db.log && r.db.tokens == s.db.tokens && r.db.birth == s.db.birth
  {
    var a := Apply(s, Step(p, t));
    Steps(s, u, seen, p, t);
    r := Apply(a, Step(p, t));
    Steps(a, u, seen + {t}, p, t);
  }

  /** One attempt that nobody interrupts. */
  lemma Attempts(s: State, u: UserId, seen: set<Token>, p: Pid, t: Token) returns (r: State)
    requires Scene(s, u, seen) && p in s.procs && s.procs[p].IssueDelete? && s.procs[p].call.user == u && t !in seen
    ensures Scene(r, u, seen + {t}) && r.procs == s.procs[p := IssueReturn(Issued(t))]
    ensures Blockers(r.db, u) == {t} && t in r.db.birth && s.db.log <= r.db.log
  {
    var a := Apply(s, Step(p, t));
    Steps(s, u, seen, p, t);
    var b := Names(a, u, seen, p, t);
    r := Apply(b, Step(p, 0));
    assert Blockers(b.db, u) == Blockers(a.db, u);
    Inserts(b, u, seen + {t}, p);
  }

  lemma Completes(s: State, u: UserId, seen: set<Token>, q: Pid, t: Token) returns (r: State)
    requires Scene(s, u, seen) && q !in s.procs && t !in seen
    ensures Scene(r, u, seen + {t}) && r.procs == s.procs[q := IssueReturn(Issued(t))]
    ensures Blockers(r.db, u) == {t} && t in r.db.birth
  {
    Arrives(s, u, seen, q);
    r := Attempts(Apply(s, ArriveIssue(q, u)), u, seen, q, t);
  }

  /** Call q runs as a whole between the DELETE and the INSERT of an attempt of p. */
  lemma Spoils(s: State, u: UserId, seen: set<Token>, p: Pid, q: Pid, t: Token, mine: Token) returns (r: State)
    requires Scene(s, u, seen) && p in s.procs && s.procs[p].IssueDelete? && s.procs[p].call.user == u
    requires q !in s.procs && t !in seen && mine !in seen && t != mine
    ensures Scene(r, u, {t, mine} + seen)
    ensures r.procs.Keys == s.procs.Keys + {q}
    ensures var n := |s.procs[p].call.blocks| + 1;
      if n < MAX_ATTEMPTS then r.procs[p].IssueDelete? && r.procs[p].call.user == u && |r.procs[p].call.blocks| == n
      else r.procs[p].IssueReturn? && r.procs[p].response.Contention?
  {
    var a := Apply(s, Step(p, mine));
    Steps(s, u, seen, p, mine);
    var b := Completes(a, u, seen, q, t);
    var c := Names(b, u, seen + {t}, p, mine);
    assert Blockers(c.db, u) == {t};
    Inserts(c, u, seen + {t} + {mine}, p);
    r := Apply(c, Step(p, 0));
    assert seen + {t} + {mine} == {t, mine} + seen;
  }

  ghost function Opening(u: UserId): State {
    State(Db(0, map[u := ""], map[], map[], {}, map[], map[], []), map[])
  }

  lemma OpeningScene(u: UserId)
    ensures Scene(Opening(u), u, {})
  {
    assert Run(Opening(u), []) == Opening(u);
    assert Fresh(Opening(u));
  }

  lemma Returns(s: State, p: Pid)
    requires Reachable(s) && p in s.procs && s.procs[p].IssueReturn?
    ensures var t := Apply(s, Step(p, 0));
      && Reachable(t) && t.procs == s.procs[p := Finished(s.procs[p].response)]
      && t.db == s.db.(log := s.db.log + [Ended(p)])
  {
    ReachableStep(s, Step(p, 0));
  }

  lemma SpoiledThrice(s: State, u: UserId, p: Pid, q1: Pid, q2: Pid, q3: Pid) returns (r: State)
    requires Scene(s, u, {}) && s.procs.Keys == {p} && s.procs[p].IssueDelete? && s.procs[p].call.user == u
    requires |s.procs[p].call.blocks| == 0
    requires p !in {q1, q2, q3} && q1 != q2 && q1 != q3 && q2 != q3
    ensures Reachable(r) && r.procs.Keys == {p, q1, q2, q3} && r.procs[p].IssueReturn?
    ensures r.procs[p].response.Contention?
  {
    var s1 := Spoils(s, u, {}, p, q1, 1, 2);
    var s2 := Spoils(s1, u, {1, 2}, p, q2, 3, 4);
    r := Spoils(s2, u, {1, 2, 3, 4}, p, q3, 5, 6);
  }

  /** The retry bound is exact: three other calls are enough to make a call for
      the same user report contention. */
  lemma ThreeOthersSuffice(u: UserId, p: Pid, q1: Pid, q2: Pid, q3: Pid)
    requires p !in {q1, q2, q3} && q1 != q2 && q1 != q3 && q2 != q3
    ensures exists s ::
        Reachable(s) && s.procs.Keys == {p, q1, q2, q3} && s.procs[p].Finished? && s.procs[p].response.Contention?
  {
    OpeningScene(u);
    Arrives(Opening(u), u, {}, p);
    var s0 := Apply(Opening(u), ArriveIssue(p, u));
    var s3 := SpoiledThrice(s0, u, p, q1, q2, q3);
    Returns(s3, p);
    var s := Apply(s3, Step(p, 0));
    assert s.procs[p].Finished? && s.procs[p].response.Contention?;
  }

  /** Calls p and q have returned a token each, p began first, and p's is the live one. */
  ghost predicate EarlierWon(s: State, u: UserId, p: Pid, q: Pid, t: Token, dead: Token) {
    && BeganAt(s.db.log, 0, p, u) && BeganAt(s.db.log, 1, q, u)
    && s.procs == map[p := Finished(Issued(t)), q := Finished(Issued(dead))]
    && Blockers(s.db, u) == {t} && t != dead
  }

  /** The token left valid is the last one inserted, which need not be the one
      of the call that began last: here p began before q, both have returned a
      token, and q's is already dead. */
  lemma EarlierCallCanSupersede(u: UserId, p: Pid, q: Pid)
    requires p != q
    ensures exists s: State, t: Token, dead: Token :: Reachable(s) && EarlierWon(s, u, p, q, t, dead)
  {
    OpeningScene(u);
    Arrives(Opening(u), u, {}, p);
    var s0 := Apply(Opening(u), ArriveIssue(p, u));
    Arrives(s0, u, {}, q);
    var s1 := Apply(s0, ArriveIssue(q, u));
    assert s1.db.log == [Began(p, u), Began(q, u)];
    var s2 := Attempts(s1, u, {}, q, 1);
    var s3 := Attempts(s2, u, {1}, p, 2);
    var s4 := BothReturn(s3, u, p, q);
    assert EarlierWon(s4, u, p, q, 2, 1);
  }

  lemma BothReturn(s: State, u: UserId, p: Pid, q: Pid) returns (r: State)
    requires Reachable(s) && p != q && s.procs == map[p := IssueReturn(Issued(2)), q := IssueReturn(Issued(1))]
    requires BeganAt(s.db.log, 0, p, u) && BeganAt(s.db.log, 1, q, u)
    ensures Reachable(r) && r.procs == map[p := Finished(Issued(2)), q := Finished(Issued(1))]
    ensures BeganAt(r.db.log, 0, p, u) && BeganAt(r.db.log, 1, q, u) && r.db.tokens == s.db.tokens
  {
    Returns(s, p);
    var s1 := Apply(s, Step(p, 0));
    Returns(s1, q);
    r := Apply(s1, Step(q, 0));
  }

  // ---- a failure in between --------------------------------------------------------------------

  /** Call q returned a token, call p failed after its DELETE and has returned;
      nothing was consumed since, and u is left with no valid token. */
  ghost predicate LeftWithNone(s: State, u: UserId, p: Pid, q: Pid, t: Token) {
    && s.procs == map[p := Finished(Failure), q := Finished(Issued(t))]
    && Blockers(s.db, u) == {} && exists d :: LastDelete(s.db.log, d, u) && s.db.log[d].pid == p
  }

  /** A call that fails between its DELETE and its INSERT takes the user's valid
      token away and gives them none, so quiescence alone does not leave one. */
  lemma FailureLeavesNone(u: UserId, p: Pid, q: Pid)
    requires p != q
    ensures exists s: State, t: Token :: Reachable(s) && LeftWithNone(s, u, p, q, t)
  {
    OpeningScene(u);
    var s1 := Completes(Opening(u), u, {}, q, 1);
    Returns(s1, q);
    var s2 := Apply(s1, Step(q, 0));
    Arrives(s2, u, {1}, p);
    var s3 := Apply(s2, ArriveIssue(p, u));
    var s4 := FailsAfterDelete(s3, u, {1}, p);
    assert s4.procs == map[p := Finished(Failure), q := Finished(Issued(1))];
    assert LeftWithNone(s4, u, p, q, 1);
  }

  /** A call's DELETE, the failure of its next statement, and its return. */
  lemma FailsAfterDelete(s: State, u: UserId, seen: set<Token>, p: Pid) returns (r: State)
    requires Scene(s, u, seen) && p in s.procs && s.procs[p].IssueDelete? && s.procs[p].call.user == u
    ensures Reachable(r) && r.procs == s.procs[p := Finished(Failure)] && Blockers(r.db, u) == {}
    ensures exists d :: LastDelete(r.db.log, d, u) && r.db.log[d].pid == p
  {
    Steps(s, u, seen, p, 0);
    var s1 := Apply(s, Step(p, 0));
    assert s1.db.log == s.db.log + [Deleted(p, u)];
    ReachableStep(s1, Fail(p));
    var s2 := Apply(s1, Fail(p));
    Returns(s2, p);
    r := Apply(s2, Step(p, 0));
    assert LastDelete(r.db.log, |s.db.log|, u);
  }
}
