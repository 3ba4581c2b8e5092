/**
 * The logic of auth-project/src/backend/authorization/views.py: the diagnostic
 * `check_user_access` loop, `IsAdminPermission`, and the two `UserRoleViewSet` members
 * `perform_create` and `user_roles`. The plain CRUD of the view sets is the insert and
 * delete methods of `AuthzStore`.
 */
module AuthzViews {
  import opened Wrappers
  import opened Permissions
  import opened AuthzModels

  /**
   * The outcome of a rejected request: 401 from `IsAuthenticated`, 403 from
   * `IsAdminPermission`, 400, 404, or a row the store refuses.
   */
  datatype ViewError = Unauthenticated | Forbidden | BadRequest | Unknown404 | Rejected(why: StoreError)

  /** The report returned by `check_user_access`. */
  datatype AccessReport = AccessReport(
    userId: UserId, resource: string, action: string,
    hasAccess: bool, canAccessAll: bool, roles: set<RoleId>)

  /** Whether one rule gives `has_access` for the action in the loop of `check_user_access`. */
  predicate GrantsAccess(c: Caps, a: Action) {
    if a == Create then c.canCreate
    else if Scoped(a) then FlagOf(c, AllFlag(a)) || FlagOf(c, OwnFlag(a))
    else false
  }

  /** Whether one rule gives `can_access_all`. */
  predicate GrantsAll(c: Caps, a: Action) {
    Scoped(a) && FlagOf(c, AllFlag(a))
  }

  /** A resource row with this name exists (`get_object_or_404(BusinessResource, name=...)` succeeds). */
  predicate HasResourceNamed(db: AuthzStore, name: string)
    reads db
  {
    exists k | k in db.resources :: db.resources[k].name == name
  }

  /**
   * The loop of `check_user_access` over the rules of the user's roles on the resource:
   * it ORs each rule's contribution into `has_access` and `can_access_all`, so the result
   * does not depend on the order in which the rules are visited.
   */
  method AccumulateFlags(rs: set<AccessRule>, act: string) returns (hasAccess: bool, canAccessAll: bool)
    ensures hasAccess <==> exists x :: x in rs && GrantsAccess(x.caps, ParseAction(act))
    ensures canAccessAll <==> exists x :: x in rs && GrantsAll(x.caps, ParseAction(act))
    ensures canAccessAll ==> hasAccess
  {
    ghost var a := ParseAction(act);
    hasAccess, canAccessAll := false, false;
    var todo := rs;
    ghost var done: set<AccessRule> := {};
    while todo != {}
      invariant todo <= rs && done == rs - todo
      invariant hasAccess <==> exists x :: x in done && GrantsAccess(x.caps, a)
      invariant canAccessAll <==> exists x :: x in done && GrantsAll(x.caps, a)
      invariant canAccessAll ==> hasAccess
      decreases |todo|
    {
      var rule :| rule in todo;
      if act == "create" && rule.caps.canCreate {
        hasAccess := true;
      } else if act == "read" {
        if rule.caps.canReadAll {
          hasAccess, canAccessAll := true, true;
        } else if rule.caps.canRead {
          hasAccess := true;
        }
      } else if act == "update" {
        if rule.caps.canUpdateAll {
          hasAccess, canAccessAll := true, true;
        } else if rule.caps.canUpdate {
          hasAccess := true;
        }
      } else if act == "delete" {
        if rule.caps.canDeleteAll {
          hasAccess, canAccessAll := true, true;
        } else if rule.caps.canDelete {
          hasAccess := true;
        }
      }
      todo, done := todo - {rule}, done + {rule};
    }
  }

  /** The gate of every view set of this file: `IsAuthenticated`, then `IsAdminPermission`. */
  function AdminGate(db: AuthzStore, req: Requester): (r: Option<ViewError>)
    reads db
    requires db.Valid()
    ensures r.None? <==> req.Authenticated? && "admin" in db.RoleNamesOf(req.id)
    ensures r.Some? ==> r.value == (if req.Anonymous? then Unauthenticated else Forbidden)
  {
    if req.Anonymous? then Some(Unauthenticated)
    else
      IsAdminExactly(req, db.RoleNamesOf(req.id));
      if !IsAdmin(req, db.RoleNamesOf(req.id)) then Some(Forbidden) else None
  }

  /**
   * `AccessRuleViewSet.check_user_access`, behind the admin gate. The parameter `userId` is
   * None when `user_id` is missing or empty.
   */
  method CheckUserAccess(db: AuthzStore, req: Requester, userId: Option<UserId>, resourceName: Option<string>, action: Option<string>)
    returns (r: Result<AccessReport, ViewError>)
    requires db.Valid()
    ensures AdminGate(db, req).Some? ==> r == Failure(AdminGate(db, req).value)
    ensures AdminGate(db, req).None? ==>
      (!(userId.Some? && Given(resourceName) && Given(action)) <==> r == Failure(BadRequest))
    ensures AdminGate(db, req).None? && userId.Some? && Given(resourceName) && Given(action)
            && (userId.value !in db.users || !HasResourceNamed(db, resourceName.value))
            ==> r == Failure(Unknown404)
    ensures AdminGate(db, req).None? && userId.Some? && Given(resourceName) && Given(action)
            && userId.value in db.users && HasResourceNamed(db, resourceName.value)
            ==> r.Success?
    ensures r.Success? ==>
      && userId.Some? && resourceName.Some? && action.Some?
      && userId.value in db.users && HasResourceNamed(db, resourceName.value)
      && r.value.userId == userId.value && r.value.resource == resourceName.value && r.value.action == action.value
      && r.value.roles == db.RolesOf(userId.value)
      && (r.value.hasAccess <==> (exists rule :: rule in db.RuleSet() && rule.role in r.value.roles
                                    && rule.resource == r.value.resource && GrantsAccess(rule.caps, ParseAction(r.value.action))))
      && (r.value.canAccessAll <==> (exists rule :: rule in db.RuleSet() && rule.role in r.value.roles
                                       && rule.resource == r.value.resource && GrantsAll(rule.caps, ParseAction(r.value.action))))
      && (r.value.canAccessAll ==> r.value.hasAccess)
  {
    var gate := AdminGate(db, req);
    if gate.Some? {
      return Failure(gate.value);
    }
    if !(userId.Some? && Given(resourceName) && Given(action)) {
      return Failure(BadRequest);
    }
    var uid, name, act := userId.value, resourceName.value, action.value;
    if uid !in db.users || !HasResourceNamed(db, name) {
      return Failure(Unknown404);
    }
    var roles := db.RolesOf(uid);
    var rs := set rule | rule in db.RuleSet() && rule.role in roles && rule.resource == name;
    var hasAccess, canAccessAll := AccumulateFlags(rs, act);
    r := Success(AccessReport(uid, name, act, hasAccess, canAccessAll, roles));
  }

  /**
   * The report agrees with the engine: for read, update and delete `has_access` is "some rule
   * has the `_all` or the plain flag" and `can_access_all` is "some rule has the `_all` flag";
   * for create `has_access` is the create check and `can_access_all` is False; for any other
   * action both are False.
   */
  lemma ReportMatchesEngine(ctx: Ctx, resource: string, a: Action)
    ensures (exists rule :: Applies(ctx, resource, rule) && GrantsAccess(rule.caps, a))
            <==> if a == Create then CheckCreate(ctx, resource)
                 else Scoped(a) && (AnyFlag(ctx, resource, AllFlag(a)) || AnyFlag(ctx, resource, OwnFlag(a)))
    ensures (exists rule :: Applies(ctx, resource, rule) && GrantsAll(rule.caps, a))
            <==> Scoped(a) && AnyFlag(ctx, resource, AllFlag(a))
  {
    if a == Create && CheckCreate(ctx, resource) {
      var rule :| rule in ctx.rules && Applies(ctx, resource, rule) && FlagOf(rule.caps, CanCreate);
      assert GrantsAccess(rule.caps, a);
    }
    if Scoped(a) && AnyFlag(ctx, resource, AllFlag(a)) {
      var rule :| rule in ctx.rules && Applies(ctx, resource, rule) && FlagOf(rule.caps, AllFlag(a));
      assert GrantsAccess(rule.caps, a) && GrantsAll(rule.caps, a);
    }
    if Scoped(a) && AnyFlag(ctx, resource, OwnFlag(a)) {
      var rule :| rule in ctx.rules && Applies(ctx, resource, rule) && FlagOf(rule.caps, OwnFlag(a));
      assert GrantsAccess(rule.caps, a);
    }
  }

  /** When the report says no access, the object check denies every target. */
  lemma NoAccessMeansDenied(ctx: Ctx, resource: string, a: Action, t: Target)
    requires !exists rule :: Applies(ctx, resource, rule) && GrantsAccess(rule.caps, a)
    ensures !HasObjectPermission(ctx, resource, a, t)
  {
    ReportMatchesEngine(ctx, resource, a);
    ObjectPermissionIsDecision(ctx, resource, a, t);
  }

  /** The role list `IsAdminPermission` passes to `HasRolePermission`. */
  const AdminRoles := RoleList(["admin"])

  /** `IsAdminPermission`. */
  predicate IsAdmin(req: Requester, held: set<string>) {
    HasRole(req, held, AdminRoles)
  }

  /** `IsAdminPermission` allows exactly authenticated users holding a role named `admin`. */
  lemma IsAdminExactly(req: Requester, held: set<string>)
    ensures IsAdmin(req, held) <==> req.Authenticated? && "admin" in held
  {
    HasRoleList(req, held, ["admin"]);
  }

  /**
   * `POST` on `UserRoleViewSet`: admins only; `perform_create` saves the assignment with
   * `assigned_by` set to the requesting user; a duplicate or dangling key is rejected.
   */
  method CreateUserRole(db: AuthzStore, req: Requester, user: UserId, role: RoleId)
    returns (r: Result<AssignmentId, ViewError>)
    requires db.Valid()
    modifies db
    ensures db.Valid()
    ensures old(AdminGate(db, req)).Some? ==> r == Failure(old(AdminGate(db, req)).value) && unchanged(db)
    ensures old(AdminGate(db, req)).None? ==>
      (r.Success? <==> user in old(db.users) && role in old(db.roles) && req.id in old(db.users)
                       && role !in old(db.RolesOf(user)))
    ensures r.Success? ==>
      && req.Authenticated?
      && r.value !in old(db.assignments)
      && db.assignments == old(db.assignments)[r.value := UserRole(user, role, Some(req.id))]
    ensures r.Failure? ==> db.assignments == old(db.assignments)
    ensures db.users == old(db.users) && db.roles == old(db.roles) && db.resources == old(db.resources) && db.rules == old(db.rules)
  {
    var gate := AdminGate(db, req);
    if gate.Some? {
      return Failure(gate.value);
    }
    var res := db.Assign(user, role, Some(req.id));
    match res
    case Success(id) => r := Success(id);
    case Failure(e) => r := Failure(Rejected(e));
  }

  /**
   * `UserRoleViewSet.user_roles`, behind the admin gate: 400 without `user_id`, otherwise
   * the assignments of that user.
   */
  function UserRoles(db: AuthzStore, req: Requester, userId: Option<UserId>): (r: Result<set<UserRole>, ViewError>)
    reads db
    requires db.Valid()
    ensures AdminGate(db, req).Some? ==> r == Failure(AdminGate(db, req).value)
    ensures AdminGate(db, req).None? ==> (userId.None? <==> r == Failure(BadRequest))
    ensures AdminGate(db, req).None? && userId.Some? ==> r.Success?
    ensures r.Success? ==> userId.Some? && forall a :: a in r.value <==> a in db.assignments.Values && a.user == userId.value
    ensures r.Success? ==> forall a :: a in r.value ==> a.role in db.RolesOf(userId.value)
  {
    if AdminGate(db, req).Some? then Failure(AdminGate(db, req).value)
    else match userId
      case None => Failure(BadRequest)
      case Some(u) => Success(set k | k in db.assignments && db.assignments[k].user == u :: db.assignments[k])
  }
}
