/** internal/admin's role operations in their own imperative form: the
    transaction works on its own copy of what it wrote, a `committed` flag
    decides whether that copy replaces the tables, and every early return rolls
    back. */
module RoleStore {
  import opened Ids
  import opened Roles

  datatype RoleChange = Changed(oldRole: Role, demoted: bool) | Missing | LastOne

  ghost predicate HasSuperuser(roles: map<UserId, Role>) {
    exists u :: u in roles && roles[u] == Superuser
  }

  class Store {
    var roles: map<UserId, Role>
    var sessions: map<Token, UserId>

    constructor (roles: map<UserId, Role>, sessions: map<Token, UserId>)
      ensures this.roles == roles && this.sessions == sessions
    {
      this.roles := roles;
      this.sessions := sessions;
    }

    /** setRole run without interference. */
    method SetRole(target: UserId, newRole: Role) returns (r: RoleChange)
      modifies this
      ensures r.Missing? <==> target !in old(roles)
      ensures r.LastOne? <==>
          && target in old(roles) && old(roles)[target] == Superuser && newRole != Superuser
          && forall u | u in old(roles) && old(roles)[u] == Superuser :: u == target
      ensures !r.Changed? ==> roles == old(roles) && sessions == old(sessions)
      ensures r.Changed? ==> r.oldRole == old(roles)[target] && roles == old(roles)[target := newRole]
      ensures r.Changed? ==> (r.demoted <==> Lowers(old(roles)[target], newRole))
      ensures r.Changed? ==>
          forall t :: t in sessions <==> t in old(sessions) && !(r.demoted && old(sessions)[t] == target)
      ensures forall t | t in sessions :: sessions[t] == old(sessions)[t]
      ensures HasSuperuser(old(roles)) ==> HasSuperuser(roles)
    {
      var txRoles, txSessions := roles, sessions;
      if target !in txRoles {
        return Missing;
      }
      var oldRole := txRoles[target];
      if oldRole == Superuser && newRole != Superuser {
        var n := |SuperusersIn(txRoles)|;
        OneElement(SuperusersIn(txRoles), target);
        assert forall u :: u in SuperusersIn(txRoles) <==> u in txRoles && txRoles[u] == Superuser;
        if n <= 1 {
          return LastOne;
        }
      }
      ghost var others := SuperusersIn(txRoles);
      txRoles := txRoles[target := newRole];
      var demoted := RoleLevel(newRole) < RoleLevel(oldRole);
      if demoted {
        txSessions := map t | t in txSessions && txSessions[t] != target :: txSessions[t];
      }
      // Commit.
      roles, sessions := txRoles, txSessions;
      if newRole == Superuser {
        assert roles[target] == Superuser;
      } else if HasSuperuser(old(roles)) {
        var v :| v in old(roles) && old(roles)[v] == Superuser;
        assert v in others;
        NotOnly(others, target);
        var u :| u in others && u != target;
        assert roles[u] == Superuser;
      }
      return Changed(oldRole, demoted);
    }

    /** verifyMember run without interference. */
    method VerifyMember(viewerLevel: int, target: UserId) returns (r: Response)
      modifies this`roles
      ensures r == NotFound <==> target !in old(roles) || !InScope(viewerLevel, old(roles)[target])
      ensures r == NotPending <==> r != NotFound && old(roles)[target] != New
      ensures r == Verified <==> r != NotFound && r != NotPending
      ensures roles == (if r == Verified then old(roles)[target := User] else old(roles))
    {
      if target !in roles || !VisibleTo(viewerLevel, roles[target]) {
        return NotFound;
      }
      if roles[target] != New {
        return NotPending;
      }
      roles := roles[target := User];
      return Verified;
    }
  }

  lemma NotOnly(s: set<UserId>, x: UserId)
    requires s != {} && s != {x}
    ensures exists u :: u in s && u != x
  {
    var v :| v in s;
    assert s <= {x} ==> s == {x};
    assert exists u :: u in s && u !in {x};
  }

  lemma OneElement(s: set<UserId>, x: UserId)
    requires x in s
    ensures |s| <= 1 <==> s == {x}
  {
    assert |s - {x}| == |s| - 1;
    if |s| <= 1 {
      assert s - {x} == {};
      assert s == {x} + (s - {x});
    }
  }
}
