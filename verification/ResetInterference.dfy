/** The reset machine meets the interference contract of ResetStore.Store.Yield:
    any run in which a given request takes no step does to the clock and the
    token rows only what that contract allows. */
module ResetInterference {
  import opened Ids
  import opened ResetDb
  import opened ResetInvariant
  import opened ResetStore

  function Counted(e: Event, p: Pid, u: UserId): nat {
    if e.Inserted? && e.user == u && e.pid != p then 1 else 0
  }

  /** Successful inserts for u by requests other than p. */
  function ForeignInserts(log: seq<Event>, p: Pid, u: UserId): nat {
    if log == [] then 0
    else
      var e := log[|log| - 1];
      ForeignInserts(log[..|log| - 1], p, u) + Counted(e, p, u)
  }

  /** t was drawn by p, or presented to a confirm, or is one that p draws later. */
  ghost predicate Ours(db: Db, p: Pid, t: Token, later: set<Token>) {
    (t in db.issued && db.issued[t] == p) || Known(db, t) || (t in later && t !in db.issued)
  }

  ghost predicate AllOurs(db: Db, p: Pid, ours: set<Token>, later: set<Token>) {
    forall t | t in ours :: Ours(db, p, t, later)
  }

  function InsertsOf(db: Db, p: Pid): UserId -> nat {
    u => ForeignInserts(db.log, p, u)
  }

  ghost predicate InterferesIn(db: Db, db': Db, p: Pid, ours: set<Token>) {
    Interferes(ours, db.now, db.tokens, InsertsOf(db, p), db'.now, db'.tokens, InsertsOf(db', p))
  }

  /** Not a step of p, and draws none of the tokens p draws later. */
  predicate OfOthers(a: Action, p: Pid, later: set<Token>) {
    a.Step? ==> a.pid != p && a.draw !in later
  }

  lemma ForeignAppend(log: seq<Event>, e: Event, p: Pid)
    ensures forall u :: ForeignInserts(log + [e], p, u) == ForeignInserts(log, p, u) + Counted(e, p, u)
  {
    assert (log + [e])[..|log|] == log;
  }

  lemma StepInterferes(s: State, q: Pid, draw: Token, p: Pid, ours: set<Token>, later: set<Token>)
    requires Inv(s) && q in s.procs && !s.procs[q].Finished? && q != p && draw !in later
    requires AllOurs(s.db, p, ours, later)
    ensures var db' := Advance(s, q, draw).db; InterferesIn(s.db, db', p, ours) && AllOurs(db', p, ours, later)
  {
    var stmt := Next(s.procs[q], draw);
    NextOk(s.db, q, s.procs[q], draw);
    ExecGrows(s.db, q, stmt);
    var db' := Exec(s.db, q, stmt).0;
    ExecCounts(s.db, q, stmt, p);
    ExecRows(s.db, q, stmt, p, ours, later);
  }

  lemma ExecCounts(db: Db, q: Pid, stmt: Stmt, p: Pid)
    requires q != p
    ensures var db' := Exec(db, q, stmt).0;
      && (forall u :: ForeignInserts(db.log, p, u) <= ForeignInserts(db'.log, p, u))
      && (forall u | HasLiveRow(db'.tokens, u) && !HasLiveRow(db.tokens, u) ::
            ForeignInserts(db.log, p, u) < ForeignInserts(db'.log, p, u))
  {
    var db' := Exec(db, q, stmt).0;
    if db'.log != db.log {
      ExecEvent(db, q, stmt);
      ForeignAppend(db.log, db'.log[|db.log|], p);
    }
    forall u | HasLiveRow(db'.tokens, u) && !HasLiveRow(db.tokens, u)
      ensures ForeignInserts(db.log, p, u) < ForeignInserts(db'.log, p, u)
    {
      var t :| t in db'.tokens && db'.tokens[t].user == u && !db'.tokens[t].consumed;
      assert !(t in db.tokens && db.tokens[t] == db'.tokens[t]);
      assert stmt.InsertToken? && stmt.user == u;
    }
  }

  lemma ExecRows(db: Db, q: Pid, stmt: Stmt, p: Pid, ours: set<Token>, later: set<Token>)
    requires TableOk(db) && StmtOk(db, q, stmt) && q != p && (stmt.NewToken? ==> stmt.token !in later)
    requires AllOurs(db, p, ours, later)
    ensures var db' := Exec(db, q, stmt).0;
      && AllOurs(db', p, ours, later)
      && (forall t | t in ours && t in db'.tokens ::
            t in db.tokens && db'.tokens[t] in {db.tokens[t], db.tokens[t].(consumed := true)})
  {
    var db' := Exec(db, q, stmt).0;
    forall t | t in ours
      ensures Ours(db', p, t, later)
      ensures t in db'.tokens ==>
        t in db.tokens && db'.tokens[t] in {db.tokens[t], db.tokens[t].(consumed := true)}
    {
      assert Ours(db, p, t, later);
    }
  }

  lemma OtherInterferes(s: State, a: Action, p: Pid, ours: set<Token>, later: set<Token>)
    requires Inv(s) && Outside(a) && AllOurs(s.db, p, ours, later)
    ensures var db' := Apply(s, a).db; InterferesIn(s.db, db', p, ours) && AllOurs(db', p, ours, later)
  {
    var db' := Apply(s, a).db;
    assert Quiet(s.db, db');
    if db'.log != s.db.log {
      assert db'.log == s.db.log + [db'.log[|s.db.log|]];
      ForeignAppend(s.db.log, db'.log[|s.db.log|], p);
    }
    forall u | HasLiveRow(db'.tokens, u) ensures HasLiveRow(s.db.tokens, u) {
      var t :| t in db'.tokens && db'.tokens[t].user == u && !db'.tokens[t].consumed;
      assert s.db.tokens[t] == db'.tokens[t];
    }
    forall t | t in ours ensures Ours(db', p, t, later) { assert Ours(s.db, p, t, later); }
  }

  lemma ApplyInterferes(s: State, a: Action, p: Pid, ours: set<Token>, later: set<Token>)
    requires Inv(s) && OfOthers(a, p, later) && AllOurs(s.db, p, ours, later)
    ensures var db' := Apply(s, a).db; InterferesIn(s.db, db', p, ours) && AllOurs(db', p, ours, later)
  {
    if a.Step? {
      if a.pid in s.procs && !s.procs[a.pid].Finished? { StepInterferes(s, a.pid, a.draw, p, ours, later); }
    } else if a.Fail? {
      assert AllOurs(Apply(s, a).db, p, ours, later);
    } else {
      OtherInterferes(s, a, p, ours, later);
    }
  }

  lemma InterferesTransitive(a: Db, b: Db, c: Db, p: Pid, ours: set<Token>)
    requires InterferesIn(a, b, p, ours) && InterferesIn(b, c, p, ours)
    ensures InterferesIn(a, c, p, ours)
  {
    var ia, ib, ic := InsertsOf(a, p), InsertsOf(b, p), InsertsOf(c, p);
    forall u ensures ia(u) <= ic(u)
      ensures HasLiveRow(c.tokens, u) && !HasLiveRow(a.tokens, u) ==> ia(u) < ic(u)
    {
      assert ia(u) <= ib(u) && ib(u) <= ic(u);
    }
  }

  lemma ValidTables(s: State)
    requires Inv(s)
    ensures TablesValid(s.db.passwords, s.db.tokens)
  {
    assert forall t | t in s.db.tokens && !s.db.tokens[t].consumed :: Open(s.db, t);
  }

  /** Whatever the other requests do between two steps of p, in any number and
      order, stays within the contract of Yield, whose validity conditions
      hold before and after. */
  lemma {:induction false} OthersInterfere(s: State, schedule: seq<Action>, p: Pid, ours: set<Token>, later: set<Token>)
    requires Inv(s) && (forall a | a in schedule :: OfOthers(a, p, later)) && AllOurs(s.db, p, ours, later)
    ensures var db' := Run(s, schedule).db;
      InterferesIn(s.db, db', p, ours) && AllOurs(db', p, ours, later) && TablesValid(db'.passwords, db'.tokens)
    decreases |schedule|
  {
    if schedule == [] {
      ValidTables(s);
    } else {
      var s' := Apply(s, schedule[0]);
      ApplyInterferes(s, schedule[0], p, ours, later);
      ApplyKeeps(s, schedule[0]);
      OthersInterfere(s', schedule[1..], p, ours, later);
      InterferesTransitive(s.db, s'.db, Run(s, schedule).db, p, ours);
    }
  }
}
