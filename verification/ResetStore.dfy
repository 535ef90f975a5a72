/** internal/auth/reset.go in its own imperative form: the bounded retry loop
    and the consume-then-rewrite sequence, each with other requests running
    between any two statements. What those may do is `Yield`'s contract. */
module ResetStore {
  import opened Outcomes
  import opened Ids
  import opened ResetDb

  datatype IssueResult = Fresh(token: Token) | SupersedeContention | StoreError

  /** Which statement of issueToken fails, and in which attempt. */
  datatype IssueFault = NoFault | AtDelete(attempt: nat) | AtToken(attempt: nat) | AtInsert(attempt: nat)

  /** Which statement of ConfirmReset fails; the wipe's failure is only logged. */
  datatype ConfirmFault = NoConfirmFault | AtConsume | AtClassify | AtPassword | AtWipe

  datatype ConfirmResult = Confirmed | Refused(refusal: Refusal) | ConfirmError

  /** A unique violation (23505) is told apart from every other failure. */
  datatype InsertResult = Stored | UniqueViolation | OtherError

  class Store {
    var now: Time
    var passwords: map<UserId, string>
    var rows: map<Token, TokenRow>
    var sessions: map<Token, UserId>
    ghost var inserts: UserId -> nat   // successful inserts of other requests, per user

    ghost predicate Valid()
      reads this
    {
      TablesValid(passwords, rows)
    }

    constructor (now: Time, passwords: map<UserId, string>, sessions: map<Token, UserId>)
      ensures Valid() && this.now == now && this.passwords == passwords && rows == map[] && this.sessions == sessions
    {
      this.now := now;
      this.passwords := passwords;
      this.sessions := sessions;
      rows := map[];
      inserts := (u: UserId) => 0;
    }

    ghost predicate HasLive(u: UserId)
      reads this
    {
      HasLiveRow(rows, u)
    }

    /** Any number of statements of other requests; none at all when `quiet`.
        ResetInterference.OthersInterfere proves of the machine what is
        promised here. */
    method Yield(ghost ours: set<Token>, ghost quiet: bool)
      requires Valid()
      modifies this
      ensures Valid()
      ensures Interferes(ours, old(now), old(rows), old(inserts), now, rows, inserts)
      ensures quiet ==> now == old(now) && passwords == old(passwords) && sessions == old(sessions)
      ensures quiet ==> rows == old(rows) && inserts == old(inserts)
    {
    }

    /** DELETE FROM password_reset_tokens WHERE user_id = u */
    method Supersede(u: UserId)
      requires Valid()
      modifies this`rows
      ensures Valid() && !HasLive(u)
      ensures rows == WithoutTokensOf(old(rows), u)
    {
      rows := map t | t in rows && rows[t].user != u :: rows[t];
    }

    method Insert(u: UserId, token: Token, expires: Time, fails: bool) returns (r: InsertResult)
      requires Valid() && token !in rows
      modifies this`rows
      ensures Valid()
      ensures r == OtherError <==> fails || u !in passwords
      ensures r == UniqueViolation <==> !fails && u in passwords && old(HasLive(u))
      ensures rows == (if r == Stored then old(rows)[token := TokenRow(u, expires, false)] else old(rows))
    {
      if fails || u !in passwords {  // foreign key
        return OtherError;
      }
      if exists t | t in rows :: rows[t].user == u && !rows[t].consumed {
        return UniqueViolation;
      }
      rows := rows[token := TokenRow(u, expires, false)];
      return Stored;
    }

    /** One round of issueToken's loop: supersede first, then insert. A failure in
        between leaves the user with no valid token. */
    method Attempt(u: UserId, token: Token, fault: IssueFault, attempt: nat, ghost ours: set<Token>, ghost quiet: bool)
      returns (r: InsertResult)
      requires Valid() && token in ours && forall d | d in ours :: d !in rows
      modifies this
      ensures Valid() && old(now) <= now && forall v :: old(inserts)(v) <= inserts(v)
      ensures r == OtherError && u in passwords ==> fault != NoFault && fault.attempt == attempt
      ensures r == UniqueViolation ==> old(inserts)(u) < inserts(u)
      ensures r == Stored ==> token in rows && rows[token].user == u && !rows[token].consumed
      ensures r == Stored ==> old(now) + 600 <= rows[token].expires <= now + 600
      ensures r == Stored ==> forall t | t in rows && rows[t].user == u && !rows[t].consumed :: t == token
      ensures r != Stored ==> forall d | d in ours :: d !in rows
      ensures quiet ==> now == old(now) && passwords == old(passwords) && sessions == old(sessions)
      ensures quiet ==> (r == OtherError <==> u !in passwords || (fault != NoFault && fault.attempt == attempt))
      ensures quiet && fault == AtDelete(attempt) ==> rows == old(rows)
      ensures quiet && fault != AtDelete(attempt) && r == OtherError ==> rows == WithoutTokensOf(old(rows), u)
      ensures quiet && r != OtherError ==>
          r == Stored && rows == WithoutTokensOf(old(rows), u)[token := TokenRow(u, now + 600, false)]
    {
      if fault == AtDelete(attempt) {
        return OtherError;
      }
      Supersede(u);
      Yield(ours, quiet);
      if fault == AtToken(attempt) {
        return OtherError;
      }
      var expires := now + RESET_TOKEN_TTL;
      Yield(ours, quiet);
      r := Insert(u, token, expires, fault == AtInsert(attempt));
    }

    /** issueToken, with the three tokens its generator calls would return. It
        reports contention only if three inserts of other calls for this user
        succeeded while it ran, and an error only for a missing user or a
        statement that failed; on success the stored token is the user's only
        unconsumed one and expires ten minutes after the clock was read for it,
        which was during this call. Undisturbed, it replaces all the user's
        tokens by the first one drawn; a failure after its DELETE leaves none. */
    method IssueToken(u: UserId, draws: seq<Token>, fault: IssueFault, ghost quiet: bool) returns (r: IssueResult)
      requires Valid() && |draws| == MAX_ATTEMPTS
      requires forall d | d in draws :: d !in rows
      modifies this
      ensures Valid() && forall v :: old(inserts)(v) <= inserts(v)
      ensures r.StoreError? && u in passwords ==>
          fault != NoFault && inserts(u) >= old(inserts)(u) + fault.attempt
      ensures r.SupersedeContention? ==> inserts(u) >= old(inserts)(u) + 3
      ensures r.Fresh? ==> r.token in draws && r.token in rows
      ensures r.Fresh? ==> rows[r.token].user == u && !rows[r.token].consumed
      ensures r.Fresh? ==> old(now) + 600 <= rows[r.token].expires <= now + 600
      ensures r.Fresh? ==> forall t | t in rows && rows[t].user == u && !rows[t].consumed :: t == r.token
      ensures quiet && !FirstFails(fault) && u in old(passwords) ==>
          r == Fresh(draws[0]) && rows == WithoutTokensOf(old(rows), u)[draws[0] := TokenRow(u, now + 600, false)]
      ensures quiet && fault == AtDelete(0) ==> r == StoreError && rows == old(rows)
      ensures quiet && fault != AtDelete(0) && (FirstFails(fault) || u !in old(passwords)) ==>
          r == StoreError && rows == WithoutTokensOf(old(rows), u)
      ensures quiet ==> now == old(now) && passwords == old(passwords) && sessions == old(sessions)
    {
      ghost var ours := set d | d in draws;
      var attempt := 0;
      while attempt < MAX_ATTEMPTS
        invariant 0 <= attempt <= MAX_ATTEMPTS
        invariant Valid() && old(now) <= now && forall v :: old(inserts)(v) <= inserts(v)
        invariant forall d | d in ours :: d !in rows
        invariant inserts(u) >= old(inserts)(u) + attempt
        invariant quiet ==> attempt == 0 && rows == old(rows) && now == old(now)
        invariant quiet ==> passwords == old(passwords) && sessions == old(sessions)
      {
        var token := draws[attempt];
        assert token in ours;
        var inserted := Attempt(u, token, fault, attempt, ours, quiet);
        if inserted == Stored {
          return Fresh(token);
        }
        if inserted != UniqueViolation {
          return StoreError;
        }
        attempt := attempt + 1;
        Yield(ours, quiet);
      }
      return SupersedeContention;
    }

    /** ConfirmReset. The consume is decided on the table as the call finds it;
        a refusal is classified on the table as it is later, and is still exact.
        A token whose password write fails is burned all the same. */
    method ConfirmReset(token: Token, newPassword: string, fault: ConfirmFault, ghost quiet: bool)
      returns (r: ConfirmResult)
      requires Valid()
      modifies this
      ensures Valid()
      ensures r.Confirmed? <==>
          && token in old(rows) && !old(rows)[token].consumed && old(now) < old(rows)[token].expires
          && fault != AtConsume && fault != AtPassword
      ensures r.ConfirmError? <==>
          fault == AtConsume || fault == if ConsumableIn(old(rows), old(now), token) then AtPassword else AtClassify
      ensures ConsumableIn(old(rows), old(now), token) && fault != AtConsume && token in rows ==> rows[token].consumed
      ensures r.Confirmed? && fault != AtWipe ==> forall t | t in sessions :: sessions[t] != old(rows)[token].user
      ensures r == Refused(Invalid) <==> r.Refused? && token !in rows
      ensures r == Refused(Used) <==> r.Refused? && token in rows && rows[token].consumed
      ensures r == Refused(Expired) ==>
          token in old(rows) && rows[token] == old(rows)[token] && rows[token].expires <= now
      ensures quiet ==> now == old(now)
      ensures quiet ==>
          rows == if ConsumableIn(old(rows), old(now), token) && fault != AtConsume then Burned(old(rows), token)
                  else old(rows)
      ensures quiet ==>
          passwords == if r.Confirmed? then old(passwords)[old(rows)[token].user := newPassword] else old(passwords)
      ensures quiet && !(r.Confirmed? && fault != AtWipe) ==> sessions == old(sessions)
      ensures quiet && r.Confirmed? ==>
          forall t | t in old(sessions) && old(sessions)[t] != old(rows)[token].user ::
              t in sessions && sessions[t] == old(sessions)[t]
    {
      if fault == AtConsume {
        return ConfirmError;
      }
      var owner := Consume(token);
      Yield({token}, quiet);
      if owner.None? {
        if fault == AtClassify {
          return ConfirmError;
        }
        var refusal := ClassifyToken(token);
        return Refused(refusal);
      }
      r := Rewrite(owner.value, token, newPassword, fault, quiet);
    }

    /** What ConfirmReset does once the token is consumed. */
    method Rewrite(u: UserId, token: Token, newPassword: string, fault: ConfirmFault, ghost quiet: bool)
      returns (r: ConfirmResult)
      requires Valid() && (token in rows ==> rows[token].consumed)
      modifies this
      ensures Valid() && (token in rows ==> rows[token].consumed)
      ensures r == if fault == AtPassword then ConfirmError else Confirmed
      ensures r.Confirmed? && fault != AtWipe ==> forall t | t in sessions :: sessions[t] != u
      ensures quiet ==> now == old(now) && rows == old(rows)
      ensures quiet ==>
          passwords == if r.Confirmed? && u in old(passwords) then old(passwords)[u := newPassword] else old(passwords)
      ensures quiet && !(r.Confirmed? && fault != AtWipe) ==> sessions == old(sessions)
      ensures quiet ==> forall t | t in old(sessions) && old(sessions)[t] != u ::
          t in sessions && sessions[t] == old(sessions)[t]
    {
      if fault == AtPassword {
        return ConfirmError;
      }
      UpdateUserPassword(u, newPassword);
      Yield({token}, quiet);
      if fault != AtWipe {
        InvalidateAll(u);
      }
      return Confirmed;
    }

    /** The UPDATE that flips an unconsumed, unexpired row and returns its owner. */
    method Consume(token: Token) returns (owner: Option<UserId>)
      requires Valid()
      modifies this`rows
      ensures Valid()
      ensures owner.Some? <==> token in old(rows) && !old(rows)[token].consumed && now < old(rows)[token].expires
      ensures owner.Some? ==> owner.value == old(rows)[token].user
      ensures rows == if owner.Some? then Burned(old(rows), token) else old(rows)
    {
      if token !in rows || rows[token].consumed || rows[token].expires <= now {
        return None;
      }
      rows := rows[token := rows[token].(consumed := true)];
      return Some(rows[token].user);
    }

    method UpdateUserPassword(u: UserId, newPassword: string)
      modifies this`passwords
      ensures passwords == if u in old(passwords) then old(passwords)[u := newPassword] else old(passwords)
    {
      if u in passwords {
        passwords := passwords[u := newPassword];
      }
    }

    method InvalidateAll(u: UserId)
      modifies this`sessions
      ensures sessions == map t | t in old(sessions) && old(sessions)[t] != u :: old(sessions)[t]
    {
      sessions := map t | t in sessions && sessions[t] != u :: sessions[t];
    }

    /** Why a consume matched no row, read from the table as it is now. */
    method ClassifyToken(token: Token) returns (r: Refusal)
      ensures r == Invalid <==> token !in rows
      ensures r == Used <==> token in rows && rows[token].consumed
      ensures r == Expired <==> token in rows && !rows[token].consumed
    {
      if token !in rows {
        return Invalid;
      }
      if rows[token].consumed {
        return Used;
      }
      return Expired;
    }
  }

  ghost function WithoutTokensOf(rows: map<Token, TokenRow>, u: UserId): map<Token, TokenRow> {
    map t | t in rows && rows[t].user != u :: rows[t]
  }

  ghost predicate FirstFails(fault: IssueFault) {
    fault != NoFault && fault.attempt == 0
  }

  ghost predicate ConsumableIn(rows: map<Token, TokenRow>, now: Time, token: Token) {
    token in rows && !rows[token].consumed && now < rows[token].expires
  }

  ghost function Burned(rows: map<Token, TokenRow>, token: Token): map<Token, TokenRow>
    requires token in rows
  {
    rows[token := rows[token].(consumed := true)]
  }

  /** Rows belong to accounts, and no user has two unconsumed ones. */
  ghost predicate TablesValid(passwords: map<UserId, string>, rows: map<Token, TokenRow>) {
    && (forall t | t in rows :: rows[t].user in passwords)
    && (forall t1, t2 | t1 in rows && t2 in rows && !rows[t1].consumed && !rows[t2].consumed ::
        rows[t1].user == rows[t2].user ==> t1 == t2)
  }

  ghost predicate HasLiveRow(rows: map<Token, TokenRow>, u: UserId) {
    exists t :: t in rows && rows[t].user == u && !rows[t].consumed
  }

  /** What other requests may do to the clock and the token rows while a call
      owns the tokens `ours`: they never insert one of those, never un-consume
      a row, and give a user without an unconsumed row one only by inserting it. */
  ghost predicate Interferes(ours: set<Token>, now: Time, rows: map<Token, TokenRow>, inserts: UserId -> nat,
                             now': Time, rows': map<Token, TokenRow>, inserts': UserId -> nat)
  {
    && now <= now'
    && (forall u :: inserts(u) <= inserts'(u))
    && (forall u | HasLiveRow(rows', u) && !HasLiveRow(rows, u) :: inserts(u) < inserts'(u))
    && (forall t | t in ours && t in rows' :: t in rows && rows'[t] in {rows[t], rows[t].(consumed := true)})
  }
}
