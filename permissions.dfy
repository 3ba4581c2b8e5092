/**
 * The access decision engine of auth-project/src/backend/authorization/permissions.py:
 * `HasRolePermission` and `ResourceAccessPermission`.
 *
 * The engine is pure. What the source reads from the database on each call (the role ids
 * of the requesting user, the access rules of those roles) is passed in as a `Ctx`.
 * `any(rule.f for rule in access_rules)` and `AccessRule.objects.filter(...).exists()`
 * become bounded existentials over the rule set.
 */
module Permissions {
  import opened Wrappers

  type UserId = nat
  type RoleId = nat

  /** The seven capability columns of an `AccessRule`. */
  datatype Caps = Caps(
    canCreate: bool,
    canRead: bool, canReadAll: bool,
    canUpdate: bool, canUpdateAll: bool,
    canDelete: bool, canDeleteAll: bool)

  /** The capabilities of a rule created without giving any flag: every column defaults to False. */
  const NoCaps := Caps(false, false, false, false, false, false, false)

  datatype Flag = CanCreate | CanRead | CanReadAll | CanUpdate | CanUpdateAll | CanDelete | CanDeleteAll

  function FlagOf(c: Caps, f: Flag): bool {
    match f
    case CanCreate => c.canCreate
    case CanRead => c.canRead
    case CanReadAll => c.canReadAll
    case CanUpdate => c.canUpdate
    case CanUpdateAll => c.canUpdateAll
    case CanDelete => c.canDelete
    case CanDeleteAll => c.canDeleteAll
  }

  /** An access rule as the engine filters it: the role it belongs to, the NAME of its resource, its flags. */
  datatype AccessRule = AccessRule(role: RoleId, resource: string, caps: Caps)

  /** The action a permission object is configured with; any other string is `Unknown`. */
  datatype Action = Create | Read | Update | Delete | Unknown(name: string)

  function ActionName(a: Action): string {
    match a
    case Create => "create"
    case Read => "read"
    case Update => "update"
    case Delete => "delete"
    case Unknown(n) => n
  }

  /** The four action names the permission classes test for. */
  const ActionNames: set<string> := {"create", "read", "update", "delete"}

  /** The action named by a string, compared exactly as the source's `==` tests do. */
  function ParseAction(s: string): (a: Action)
    ensures ActionName(a) == s
    ensures a.Unknown? <==> s !in ActionNames
  {
    if s == "create" then Create
    else if s == "read" then Read
    else if s == "update" then Update
    else if s == "delete" then Delete
    else Unknown(s)
  }

  /** `request.user`: absent or anonymous, or an authenticated user (compared by primary key). */
  datatype Requester = Anonymous | Authenticated(id: UserId, email: string)

  /** The value held by an `owner` or `user` attribute: a User instance, or a value of another kind. */
  datatype Ref = UserObj(id: UserId) | Foreign(hasEmail: bool)

  /** Whether the target has the attribute at all (`hasattr`), and its value. */
  datatype Attr = Missing | Has(value: Ref)

  /** A protected object, seen only through its `owner` and `user` attributes. */
  datatype Target = Target(owner: Attr, user: Attr)

  /** What one permission check reads: the requester, the ids of its roles, all access rules. */
  datatype Ctx = Ctx(req: Requester, roles: set<RoleId>, rules: set<AccessRule>)

  /** `AccessRule.objects.filter(role_id__in=user_roles, resource__name=resource)`. */
  predicate Applies(ctx: Ctx, resource: string, r: AccessRule) {
    r in ctx.rules && r.role in ctx.roles && r.resource == resource
  }

  /** `any(rule.<f> for rule in access_rules)`. */
  predicate AnyFlag(ctx: Ctx, resource: string, f: Flag) {
    exists r | r in ctx.rules :: Applies(ctx, resource, r) && FlagOf(r.caps, f)
  }

  /** `_check_create_permission`: some applicable rule has `can_create=True`. */
  predicate CheckCreate(ctx: Ctx, resource: string)
    ensures CheckCreate(ctx, resource)
            <==> exists r :: r in ctx.rules && r.role in ctx.roles && r.resource == resource && r.caps.canCreate
    ensures CheckCreate(ctx, resource) ==> CheckRead(ctx, resource)
  {
    AnyFlag(ctx, resource, CanCreate)
  }

  /** `_check_read_permission`: the filter `can_read__in=[True, False]` keeps every applicable rule. */
  predicate CheckRead(ctx: Ctx, resource: string)
    ensures CheckRead(ctx, resource) <==> exists r :: r in ctx.rules && r.role in ctx.roles && r.resource == resource
  {
    exists r | r in ctx.rules :: Applies(ctx, resource, r) && (r.caps.canRead in {true, false})
  }

  /** `ResourceAccessPermission(resource, action).has_permission`: the collection-level check. */
  predicate HasPermission(ctx: Ctx, resource: string, action: Action)
    ensures HasPermission(ctx, resource, action)
            ==> ctx.req.Authenticated? && exists r :: r in ctx.rules && r.role in ctx.roles && r.resource == resource
    ensures ctx.req.Authenticated? && action != Create ==> HasPermission(ctx, resource, action) == CheckRead(ctx, resource)
  {
    if ctx.req.Anonymous? then false
    else if action == Create then CheckCreate(ctx, resource)
    else CheckRead(ctx, resource)
  }

  /** `_is_owner`: the `owner` attribute if there is one, else the `user` attribute, else not the owner. */
  predicate IsOwner(user: UserId, t: Target)
    // Once `owner` is present, the `user` attribute is never read.
    ensures t.owner.Has? && t.user.Has? ==> IsOwner(user, t) == IsOwner(user, t.(user := Missing))
    ensures t.owner.Missing? && t.user.Missing? ==> !IsOwner(user, t)
    decreases if t.user.Has? then 1 else 0
  {
    if t.owner.Has? then t.owner.value == UserObj(user)
    else if t.user.Has? then t.user.value == UserObj(user)
    else false
  }

  /** `ResourceAccessPermission(resource, action).has_object_permission`: the object-level check. */
  predicate HasObjectPermission(ctx: Ctx, resource: string, action: Action, t: Target)
    ensures HasObjectPermission(ctx, resource, action, t)
            ==> ctx.req.Authenticated? && action in {Read, Update, Delete} && HasPermission(ctx, resource, action)
  {
    if ctx.req.Anonymous? then false
    else if action == Read then
      if AnyFlag(ctx, resource, CanReadAll) then true
      else if AnyFlag(ctx, resource, CanRead) then IsOwner(ctx.req.id, t)
      else false
    else if action == Update then
      if AnyFlag(ctx, resource, CanUpdateAll) then true
      else if AnyFlag(ctx, resource, CanUpdate) then IsOwner(ctx.req.id, t)
      else false
    else if action == Delete then
      if AnyFlag(ctx, resource, CanDeleteAll) then true
      else if AnyFlag(ctx, resource, CanDelete) then IsOwner(ctx.req.id, t)
      else false
    else false
  }

  // ----- Reference definition of the object-level decision -----

  /** The actions that have an "own" and an "all" scope. */
  predicate Scoped(a: Action) {
    a == Read || a == Update || a == Delete
  }

  /** The flag granting `a` on the requester's own objects. */
  function OwnFlag(a: Action): Flag
    requires Scoped(a)
  {
    if a == Read then CanRead else if a == Update then CanUpdate else CanDelete
  }

  /** The flag granting `a` on every object. */
  function AllFlag(a: Action): Flag
    requires Scoped(a)
  {
    if a == Read then CanReadAll else if a == Update then CanUpdateAll else CanDeleteAll
  }

  /**
   * The object-level decision stated as one formula: an authenticated requester may perform
   * a scoped action iff some applicable rule grants it on all objects, or some applicable
   * rule grants it on own objects and the target is the requester's.
   */
  predicate ObjectDecision(ctx: Ctx, resource: string, action: Action, t: Target) {
    && ctx.req.Authenticated?
    && Scoped(action)
    && (AnyFlag(ctx, resource, AllFlag(action))
        || (AnyFlag(ctx, resource, OwnFlag(action)) && IsOwner(ctx.req.id, t)))
  }

  /** The if-chain of `has_object_permission` computes exactly the one-formula decision. */
  lemma ObjectPermissionIsDecision(ctx: Ctx, resource: string, action: Action, t: Target)
    ensures HasObjectPermission(ctx, resource, action, t) == ObjectDecision(ctx, resource, action, t)
  {
  }

  // ----- Properties of the engine -----

  /** Fail-closed: an absent or unauthenticated user is denied at both levels. */
  lemma UnauthenticatedDenied(ctx: Ctx, resource: string, action: Action, t: Target)
    requires ctx.req.Anonymous?
    ensures !HasPermission(ctx, resource, action)
    ensures !HasObjectPermission(ctx, resource, action, t)
  {
  }

  /** The create check passes iff some rule of one of the user's roles on this resource has `can_create`. */
  lemma CreateCollectionCheck(ctx: Ctx, resource: string)
    requires ctx.req.Authenticated?
    ensures HasPermission(ctx, resource, Create)
            <==> exists r :: r in ctx.rules && r.role in ctx.roles && r.resource == resource && r.caps.canCreate
  {
  }

  /** Any other action passes the collection check iff at least one rule applies, whatever its flags. */
  lemma OtherCollectionCheck(ctx: Ctx, resource: string, action: Action)
    requires ctx.req.Authenticated? && action != Create
    ensures HasPermission(ctx, resource, action)
            <==> exists r :: r in ctx.rules && r.role in ctx.roles && r.resource == resource
  {
    if HasPermission(ctx, resource, action) {
      var r :| r in ctx.rules && Applies(ctx, resource, r) && (r.caps.canRead in {true, false});
      assert r.role in ctx.roles;
    }
  }

  /**
   * A rule with every flag False lets the user past the collection check of read, update
   * and delete, although the object check then denies every target.
   */
  lemma AllFalseRulePassesCollectionCheck(ctx: Ctx, resource: string, role: RoleId, action: Action, t: Target)
    requires ctx.req.Authenticated? && action != Create
    requires role in ctx.roles && ctx.rules == {AccessRule(role, resource, NoCaps)}
    ensures HasPermission(ctx, resource, action)
    ensures !HasObjectPermission(ctx, resource, action, t)
  {
    assert Applies(ctx, resource, AccessRule(role, resource, NoCaps));
  }

  /** All beats own: an `_all` flag on any applicable rule allows the action on every target. */
  lemma AllFlagAllows(ctx: Ctx, resource: string, action: Action, t: Target, r: AccessRule)
    requires ctx.req.Authenticated? && Scoped(action)
    requires Applies(ctx, resource, r) && FlagOf(r.caps, AllFlag(action))
    ensures HasObjectPermission(ctx, resource, action, t)
  {
  }

  /**
   * Ownership gating: with no applicable `_all` flag but some applicable plain flag (on any
   * of the user's roles), the object check is exactly the ownership test.
   */
  lemma OwnFlagIsOwnership(ctx: Ctx, resource: string, action: Action, t: Target, r: AccessRule)
    requires ctx.req.Authenticated? && Scoped(action)
    requires !AnyFlag(ctx, resource, AllFlag(action))
    requires Applies(ctx, resource, r) && FlagOf(r.caps, OwnFlag(action))
    ensures HasObjectPermission(ctx, resource, action, t) == IsOwner(ctx.req.id, t)
  {
  }

  /** The object check denies create, unknown actions, and scoped actions no applicable rule grants. */
  lemma ObjectCheckDenies(ctx: Ctx, resource: string, action: Action, t: Target)
    ensures !Scoped(action) ==> !HasObjectPermission(ctx, resource, action, t)
    ensures Scoped(action) && !AnyFlag(ctx, resource, AllFlag(action)) && !AnyFlag(ctx, resource, OwnFlag(action))
            ==> !HasObjectPermission(ctx, resource, action, t)
  {
  }

  /** Fail-closed: a user without roles is denied by both checks, whatever the rules. */
  lemma RolelessDenied(ctx: Ctx, resource: string, action: Action, t: Target)
    requires ctx.roles == {}
    ensures !HasPermission(ctx, resource, action)
    ensures !HasObjectPermission(ctx, resource, action, t)
  {
  }

  /** `_is_owner` reads `owner` first and never looks at `user` when `owner` is present. */
  lemma OwnerAttributeFirst(user: UserId, t: Target, other: Attr)
    ensures t.owner.Has? ==> (IsOwner(user, t) <==> t.owner.value == UserObj(user))
    ensures t.owner.Has? ==> IsOwner(user, t) == IsOwner(user, t.(user := other))
    ensures t.owner.Missing? ==> (IsOwner(user, t) <==> t.user == Has(UserObj(user)))
  {
  }

  /** Growing the role set or the rule set weakens the premise of every `AnyFlag`. */
  lemma AnyFlagGrows(ctx: Ctx, ctx': Ctx, resource: string, f: Flag)
    requires ctx.roles <= ctx'.roles && ctx.rules <= ctx'.rules
    ensures AnyFlag(ctx, resource, f) ==> AnyFlag(ctx', resource, f)
  {
    if AnyFlag(ctx, resource, f) {
      var r :| r in ctx.rules && Applies(ctx, resource, r) && FlagOf(r.caps, f);
      assert Applies(ctx', resource, r);
    }
  }

  /**
   * Union semantics: adding roles or rules never turns an allow into a deny, at either
   * level, because each flag is combined with `any`.
   */
  lemma Monotone(ctx: Ctx, ctx': Ctx, resource: string, action: Action, t: Target)
    requires ctx'.req == ctx.req && ctx.roles <= ctx'.roles && ctx.rules <= ctx'.rules
    ensures HasPermission(ctx, resource, action) ==> HasPermission(ctx', resource, action)
    ensures HasObjectPermission(ctx, resource, action, t) ==> HasObjectPermission(ctx', resource, action, t)
  {
    if HasPermission(ctx, resource, action) && action != Create {
      var r :| r in ctx.rules && Applies(ctx, resource, r) && (r.caps.canRead in {true, false});
      assert Applies(ctx', resource, r);
    }
    AnyFlagGrows(ctx, ctx', resource, CanCreate);
    if Scoped(action) {
      AnyFlagGrows(ctx, ctx', resource, AllFlag(action));
      AnyFlagGrows(ctx, ctx', resource, OwnFlag(action));
    }
  }

  // ----- HasRolePermission -----

  /** The constructor argument of `HasRolePermission`: one role name, or a list of them. */
  datatype RoleArg = OneRole(name: string) | RoleList(names: seq<string>)

  /** `required_roles`: a list is kept, anything else is wrapped in a one-element list. */
  function RequiredRoles(arg: RoleArg): seq<string> {
    match arg
    case OneRole(n) => [n]
    case RoleList(ns) => ns
  }

  /**
   * `HasRolePermission.has_permission`: `held` is the set of names of the roles assigned to
   * the requesting user; allowed iff one of them is required.
   */
  predicate HasRole(req: Requester, held: set<string>, arg: RoleArg) {
    req.Authenticated? && exists n | n in RequiredRoles(arg) :: n in held
  }

  /** `HasRolePermission.has_object_permission` delegates to the request-level check. */
  predicate HasRoleObject(req: Requester, held: set<string>, arg: RoleArg, t: Target) {
    HasRole(req, held, arg)
  }

  /** A single name behaves as the one-element list, and allows exactly holders of that role. */
  lemma HasRoleSingleName(req: Requester, held: set<string>, name: string, t: Target)
    ensures HasRole(req, held, OneRole(name)) == HasRole(req, held, RoleList([name]))
    ensures HasRole(req, held, OneRole(name)) <==> req.Authenticated? && name in held
    ensures HasRoleObject(req, held, OneRole(name), t) == HasRole(req, held, OneRole(name))
  {
  }

  /** With a list, allowed iff authenticated and some held role name is in the list. */
  lemma HasRoleList(req: Requester, held: set<string>, names: seq<string>)
    ensures HasRole(req, held, RoleList(names)) <==> req.Authenticated? && exists i :: 0 <= i < |names| && names[i] in held
  {
    if req.Authenticated? && exists i :: 0 <= i < |names| && names[i] in held {
      var i :| 0 <= i < |names| && names[i] in held;
      assert names[i] in RequiredRoles(RoleList(names));
    }
  }
}
