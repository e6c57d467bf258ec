/** The request middleware's redirect decision. */
module Middleware {
  import opened Common
  import opened Domain

  datatype Decision = Pass | RedirectTo(path: string)

  /** `pathname.startsWith('/admin')`: a plain text prefix, so `/adminX`
      counts too. */
  predicate IsProtected(path: string) {
    StartsWith(path, "/admin")
  }

  predicate IsLogin(path: string) {
    StartsWith(path, "/login")
  }

  /** Whether the decision needs the user's role. */
  predicate NeedsRole(path: string, user: Option<string>) {
    !(IsProtected(path) && user.None?) && IsLogin(path) && user.Some?
  }

  /** The decision given the path, the session's user and the role the
      profile lookup would give. */
  function Decide(path: string, user: Option<string>, role: Option<Role>): Decision {
    if IsProtected(path) && user.None? then RedirectTo("/login")
    else if IsLogin(path) && user.Some? && role == Some(Admin) then RedirectTo("/admin/periods")
    else Pass
  }

  /** The decision, case by case: protected without a user goes to the
      login page, the login page with an admin goes to the periods page,
      everything else passes. */
  lemma DecideCases(path: string, user: Option<string>, role: Option<Role>)
    ensures IsProtected(path) && user.None? ==> Decide(path, user, role) == RedirectTo("/login")
    ensures IsLogin(path) && user.Some? && role == Some(Admin) ==> Decide(path, user, role) == RedirectTo("/admin/periods")
    ensures IsLogin(path) && user.Some? && role != Some(Admin) ==> Decide(path, user, role) == Pass
    ensures !IsProtected(path) && !IsLogin(path) ==> Decide(path, user, role) == Pass
    ensures IsProtected(path) && user.Some? ==> Decide(path, user, role) == Pass
  {
    if IsLogin(path) {
      assert path[1] == "/login"[1];
    }
  }

  /** Outside the login page with a user the role is never consulted: any
      two roles give the same decision. */
  lemma RoleOnlyForLogin(path: string, user: Option<string>, r1: Option<Role>, r2: Option<Role>)
    requires !NeedsRole(path, user)
    ensures Decide(path, user, r1) == Decide(path, user, r2)
  {
  }

  /** The `profiles` table as the middleware queries it, with the ids it was
      asked about. */
  class RoleLookup {
    const roles: map<string, Role>
    var queried: seq<string>

    constructor (roles: map<string, Role>)
      ensures this.roles == roles && queried == []
    {
      this.roles := roles;
      queried := [];
    }

    method RoleOf(id: string) returns (r: Option<Role>)
      modifies this
      ensures r == (if id in roles then Some(roles[id]) else None)
      ensures queried == old(queried) + [id]
    {
      queried := queried + [id];
      r := if id in roles then Some(roles[id]) else None;
    }
  }

  /** The middleware: the decision, with the role looked up only when the
      path starts with `/login` and there is a user. */
  method Handle(db: RoleLookup, path: string, user: Option<string>) returns (d: Decision)
    modifies db
    ensures d == Decide(path, user, if user.Some? && user.value in db.roles then Some(db.roles[user.value]) else None)
    ensures db.queried == old(db.queried) + (if NeedsRole(path, user) then [user.value] else [])
  {
    if IsProtected(path) && user.None? {
      return RedirectTo("/login");
    }
    if IsLogin(path) && user.Some? {
      var role := db.RoleOf(user.value);
      if role == Some(Admin) {
        return RedirectTo("/admin/periods");
      }
    }
    d := Pass;
  }
}
