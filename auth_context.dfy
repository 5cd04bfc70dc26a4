/** The signed-in user's role list and the three role flags every page
    reads from it. Sign-in, sign-up, password reset and the session itself
    live in the authentication service; they reach this model only as the
    user id a session carries and as the outcome of the role query. */
module AuthContext {
  import opened Common
  import opened Seqs

  /** The `app_role` enum. */
  datatype Role = Operador | Supervisor | Admin

  /** A row of `user_roles`: a role, possibly tied to one area. */
  datatype UserRole = UserRole(role: Role, assignedAreaId: Option<string>)

  /** The flags the provider publishes next to the role list. */
  datatype Flags = Flags(isAdmin: bool, isSupervisor: bool, isOperador: bool)

  /** `userRoles.some(r => r.role === role)`. */
  predicate HasRole(roles: seq<UserRole>, role: Role) {
    Any(roles, (u: UserRole) => u.role == role)
  }

  /** The flags of a role list. A user holding no role at all counts as an
      operator; holding other roles does not make one. */
  function FlagsOf(roles: seq<UserRole>): (f: Flags)
    ensures f.isAdmin <==> exists u :: u in roles && u.role == Admin
    ensures f.isSupervisor <==> exists u :: u in roles && u.role == Supervisor
    ensures f.isOperador <==> roles == [] || exists u :: u in roles && u.role == Operador
  {
    Flags(HasRole(roles, Admin), HasRole(roles, Supervisor),
          HasRole(roles, Operador) || |roles| == 0)
  }

  /** The flags depend only on which rows the list holds: not on their
      order, nor on repetitions. */
  lemma FlagsIgnoreOrder(a: seq<UserRole>, b: seq<UserRole>)
    requires forall u :: u in a <==> u in b
    ensures FlagsOf(a) == FlagsOf(b)
  {
    if a != [] {
      assert a[0] in b;
    }
    if b != [] {
      assert b[0] in a;
    }
  }

  /** A list made only of administrator rows gives no operator flag, so an
      administrator is not treated as an operator unless granted that role. */
  lemma AdminsAreNotOperators(roles: seq<UserRole>)
    requires roles != []
    requires forall i :: 0 <= i < |roles| ==> roles[i].role == Admin
    ensures FlagsOf(roles) == Flags(true, false, false)
  {
    assert roles[0] in roles;
  }

  /** The role list a role query leaves behind: the rows it returned, or
      nothing when it failed. */
  function RolesFromQuery(query: Result<seq<UserRole>>): (roles: seq<UserRole>)
    ensures query.Err? ==> roles == []
    ensures query.Ok? ==> roles == query.value
  {
    match query
    case Ok(rows) => rows
    case Err(_) => []
  }

  /** A failed role query leaves the user with operator rights only. */
  lemma FailedQueryIsOperatorOnly(message: string)
    ensures FlagsOf(RolesFromQuery(Err(message))) == Flags(false, false, true)
  {
  }

  /** The provider's state: the signed-in user's id, the role list and the
      loading flag. */
  class AuthProvider {
    var user: Option<string>
    var roles: seq<UserRole>
    var loading: bool

    /** Nobody signed in, no roles, still loading. */
    constructor ()
      ensures user == None && roles == [] && loading
    {
      user := None;
      roles := [];
      loading := true;
    }

    /** The flags published with the current role list. */
    function CurrentFlags(): (f: Flags)
      reads this
      ensures f == FlagsOf(roles)
    {
      FlagsOf(roles)
    }

    /** The auth-state listener: records the session's user; a session
        without a user empties the role list at once, while a session with
        one keeps the old list until the deferred role query answers. */
    method OnAuthStateChange(sessionUser: Option<string>)
      modifies this
      ensures user == sessionUser
      ensures roles == (if sessionUser.None? then [] else old(roles))
      ensures !loading
    {
      user := sessionUser;
      if sessionUser.None? {
        roles := [];
      }
      loading := false;
    }

    /** The initial session read: records its user without touching the
        role list, which its own role query fills in later. */
    method OnInitialSession(sessionUser: Option<string>)
      modifies this
      ensures user == sessionUser && roles == old(roles) && !loading
    {
      user := sessionUser;
      loading := false;
    }

    /** The role query for the signed-in user answers. */
    method OnRolesFetched(query: Result<seq<UserRole>>)
      modifies this
      ensures roles == RolesFromQuery(query)
      ensures user == old(user) && loading == old(loading)
    {
      roles := RolesFromQuery(query);
    }

    /** `signOut`: the role list is emptied right after the service call;
        the user itself is cleared by the listener that the sign-out
        triggers. */
    method SignOut()
      modifies this
      ensures roles == [] && CurrentFlags() == Flags(false, false, true)
      ensures user == old(user) && loading == old(loading)
    {
      roles := [];
    }
  }
}
