/**
 * The role-authorization hook of lib/hooks/useAuthorization.ts: the decision taken by
 * its effect callback (navigate, and where to) and the `hasRole` predicate it returns.
 *
 * The store's `user` object is read through `as any`, so the `roles` it carries is
 * untyped data: it is modelled as an optional list of strings, while the roles a page
 * requires are the typed five-value `Role` union.
 */
module Authorization {
  import opened Wrappers

  /** `type Role = "sysadmin" | "administrador" | "admin-reporte" | "organizer" | "attendee"` */
  datatype Role = Sysadmin | Administrador | AdminReporte | Organizer | Attendee

  /** The string literal each role stands for. */
  function Name(r: Role): string
  {
    match r
    case Sysadmin => "sysadmin"
    case Administrador => "administrador"
    case AdminReporte => "admin-reporte"
    case Organizer => "organizer"
    case Attendee => "attendee"
  }

  /** The store user as the hook sees it: the singular `role` that the login route returns,
      and the plural `roles` the hook actually reads, either of which may be absent. */
  datatype User = User(role: Option<string>, roles: Option<seq<string>>)

  /** The argument of `hasRole`: one role or a list of roles. */
  datatype RoleQuery = One(role: Role) | Many(roles: seq<Role>)

  const UnauthorizedPage: string := "/unauthorized"
  const DefaultRedirect: string := "/login"

  /** `Array.prototype.includes` on a list of strings. */
  function Includes(xs: seq<string>, x: string): (b: bool)
    ensures b <==> x in xs
  {
    if xs == [] then false
    else xs[0] == x || Includes(xs[1..], x)
  }

  /** `Array.prototype.some`: is the predicate true of some element? */
  function Any<T>(xs: seq<T>, p: T -> bool): (b: bool)
    ensures b <==> exists i | 0 <= i < |xs| :: p(xs[i])
  {
    if xs == [] then false
    else p(xs[0]) || Any(xs[1..], p)
  }

  /** `(user as any)?.roles || []`: a null user or an absent `roles` field gives []. */
  function HeldRoles(user: Option<User>): seq<string>
  {
    if user.Some? && user.value.roles.Some? then user.value.roles.value else []
  }

  /** Does one of the required roles occur among the roles held? */
  ghost predicate Intersects(required: seq<Role>, held: seq<string>)
  {
    exists i | 0 <= i < |required| :: Name(required[i]) in held
  }

  /**
   * The body of the `useEffect` callback: the page it pushes, if any. `redirectTo` is a
   * parameter of the hook but, the push to it being commented out, never a target.
   */
  function EffectTarget(user: Option<User>, isAuthenticated: bool, requiredRoles: seq<Role>,
                        redirectTo: string): (target: Option<string>)
    ensures !isAuthenticated ==> target.None?
    ensures target.Some? ==> target.value == UnauthorizedPage
    ensures target.Some? <==> isAuthenticated && !Intersects(requiredRoles, HeldRoles(user))
  {
    if !isAuthenticated && user.None? then
      None
    else
      var userRoles := HeldRoles(user);
      var hasRequiredRole := Any(requiredRoles, (role: Role) => Includes(userRoles, Name(role)));
      if !hasRequiredRole && isAuthenticated then Some(UnauthorizedPage) else None
  }

  /** `Array.isArray(roles) ? roles : [roles]` */
  function RolesToCheck(q: RoleQuery): seq<Role>
  {
    match q
    case One(r) => [r]
    case Many(rs) => rs
  }

  /** `user.roles?.includes(role)`: false (undefined) when `roles` is absent. */
  function OptionalIncludes(roles: Option<seq<string>>, x: string): bool
  {
    roles.Some? && Includes(roles.value, x)
  }

  /** The `hasRole` closure the hook returns. */
  function HasRole(user: Option<User>, q: RoleQuery): (b: bool)
    ensures b <==> user.Some? && user.value.roles.Some?
                   && Intersects(RolesToCheck(q), user.value.roles.value)
  {
    if user.None? then false
    else
      var rolesToCheck := RolesToCheck(q);
      Any(rolesToCheck, (role: Role) => OptionalIncludes(user.value.roles, Name(role)))
  }

  // ---------------------------------------------------------------------------
  // Properties of the effect

  /** While the store has not loaded (not authenticated, no user) nothing happens. */
  lemma UnresolvedStateDoesNothing(requiredRoles: seq<Role>, redirectTo: string)
    ensures EffectTarget(None, false, requiredRoles, redirectTo) == None
  {
  }

  /** The target never depends on `redirectTo`. */
  lemma RedirectToIsUnused(user: Option<User>, isAuthenticated: bool, requiredRoles: seq<Role>,
                           t1: string, t2: string)
    ensures EffectTarget(user, isAuthenticated, requiredRoles, t1)
         == EffectTarget(user, isAuthenticated, requiredRoles, t2)
  {
  }

  /** The hook's default `redirectTo`, "/login", is never navigated to. */
  lemma NeverNavigatesToLogin(user: Option<User>, isAuthenticated: bool, requiredRoles: seq<Role>)
    ensures EffectTarget(user, isAuthenticated, requiredRoles, DefaultRedirect) != Some(DefaultRedirect)
  {
  }

  /** An authenticated user whose `roles` is missing (or a null user) is always sent away. */
  lemma MissingRolesAlwaysRedirected(user: Option<User>, requiredRoles: seq<Role>, redirectTo: string)
    requires user.None? || user.value.roles.None?
    ensures EffectTarget(user, true, requiredRoles, redirectTo) == Some(UnauthorizedPage)
  {
  }

  /** The login route returns a user object with a singular `role` and no `roles`: if the
      client store keeps that object as it is, then whatever the role, such a user is
      refused by every guarded page. */
  lemma SingularRoleIsNeverConsulted(role: string, requiredRoles: seq<Role>, redirectTo: string)
    ensures EffectTarget(Some(User(Some(role), None)), true, requiredRoles, redirectTo)
         == Some(UnauthorizedPage)
    ensures !HasRole(Some(User(Some(role), None)), Many(requiredRoles))
  {
  }

  /** With no required role, every authenticated user is sent to the unauthorized page. */
  lemma EmptyRequirementAlwaysRedirects(user: Option<User>, redirectTo: string)
    ensures EffectTarget(user, true, [], redirectTo) == Some(UnauthorizedPage)
  {
  }

  /** For an authenticated user, the effect redirects exactly when `hasRole(requiredRoles)`
      is false: the guard and the returned predicate agree. */
  lemma EffectAgreesWithHasRole(user: Option<User>, requiredRoles: seq<Role>,
                                   redirectTo: string)
    ensures EffectTarget(user, true, requiredRoles, redirectTo).Some?
        <==> !HasRole(user, Many(requiredRoles))
  {
  }

  // ---------------------------------------------------------------------------
  // Properties of hasRole

  /** A single role is checked as the one-element list. */
  lemma HasRoleOneIsSingletonList(user: Option<User>, r: Role)
    ensures HasRole(user, One(r)) == HasRole(user, Many([r]))
  {
  }

  /** Asking about no role at all is always false. */
  lemma HasRoleOfNothingIsFalse(user: Option<User>)
    ensures !HasRole(user, Many([]))
  {
  }

  /** Without a `roles` field no query succeeds. */
  lemma HasRoleWithoutRolesIsFalse(user: User, q: RoleQuery)
    requires user.roles.None?
    ensures !HasRole(Some(user), q)
  {
  }

  /** Adding roles to the query can only turn false into true. */
  lemma HasRoleMonotone(user: Option<User>, xs: seq<Role>, ys: seq<Role>)
    requires HasRole(user, Many(xs))
    ensures HasRole(user, Many(xs + ys))
  {
  }

  /** The order of the queried roles does not matter: the answer is a set intersection. */
  lemma HasRoleIgnoresOrder(user: Option<User>, xs: seq<Role>, ys: seq<Role>)
    ensures HasRole(user, Many(xs + ys)) == HasRole(user, Many(ys + xs))
  {
    if HasRole(user, Many(xs + ys)) {
      var i :| 0 <= i < |xs + ys| && Name((xs + ys)[i]) in user.value.roles.value;
      if i < |xs| {
        assert (ys + xs)[|ys| + i] == xs[i];
      } else {
        assert (ys + xs)[i - |xs|] == ys[i - |xs|];
      }
    }
    if HasRole(user, Many(ys + xs)) {
      var i :| 0 <= i < |ys + xs| && Name((ys + xs)[i]) in user.value.roles.value;
      if i < |ys| {
        assert (xs + ys)[|xs| + i] == ys[i];
      } else {
        assert (xs + ys)[i - |ys|] == xs[i - |ys|];
      }
    }
  }
}
