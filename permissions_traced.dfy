/**
 * The second copy of the engine, src/backend/authorization/permissions.py. `has_permission`,
 * `_check_create_permission`, `_check_read_permission` and `HasRolePermission` are the same
 * as in the first copy and are `Permissions.HasPermission`, `Permissions.CheckCreate`,
 * `Permissions.CheckRead` and `Permissions.HasRole`. Only `_is_owner` is written differently:
 * it tests `hasattr(owner, 'email')` before each comparison and prints what it finds.
 */
module PermissionsTraced {
  import opened Permissions

  /** Whether the attribute's value has an `email` attribute: every User does. */
  predicate HasEmail(v: Ref) {
    match v
    case UserObj(_) => true
    case Foreign(e) => e
  }

  /** `_is_owner` of the second copy, with its `hasattr(owner, 'email')` sub-branches. */
  predicate IsOwnerTraced(user: UserId, t: Target) {
    if t.owner.Has? then
      var owner := t.owner.value;
      if HasEmail(owner) then owner == UserObj(user) else owner == UserObj(user)
    else if t.user.Has? then
      var owner := t.user.value;
      if HasEmail(owner) then owner == UserObj(user) else owner == UserObj(user)
    else false
  }

  /** `has_object_permission` of the second copy: the same chain, using `IsOwnerTraced`. */
  predicate HasObjectPermissionTraced(ctx: Ctx, resource: string, action: Action, t: Target) {
    if ctx.req.Anonymous? then false
    else if action == Read then
      if AnyFlag(ctx, resource, CanReadAll) then true
      else if AnyFlag(ctx, resource, CanRead) then IsOwnerTraced(ctx.req.id, t)
      else false
    else if action == Update then
      if AnyFlag(ctx, resource, CanUpdateAll) then true
      else if AnyFlag(ctx, resource, CanUpdate) then IsOwnerTraced(ctx.req.id, t)
      else false
    else if action == Delete then
      if AnyFlag(ctx, resource, CanDeleteAll) then true
      else if AnyFlag(ctx, resource, CanDelete) then IsOwnerTraced(ctx.req.id, t)
      else false
    else false
  }

  /**
   * The `email` test decides nothing: both sub-branches compare the attribute with the
   * user, so the second `_is_owner` is the first one; with neither attribute it is False.
   */
  lemma IsOwnerTracedAgrees(user: UserId, t: Target)
    ensures IsOwnerTraced(user, t) == IsOwner(user, t)
    ensures t.owner.Missing? && t.user.Missing? ==> !IsOwnerTraced(user, t)
  {
  }

  /** The two copies of `has_object_permission` give the same decision on every input. */
  lemma TracedCopyAgrees(ctx: Ctx, resource: string, action: Action, t: Target)
    ensures HasObjectPermissionTraced(ctx, resource, action, t) == HasObjectPermission(ctx, resource, action, t)
    ensures HasObjectPermissionTraced(ctx, resource, action, t) == ObjectDecision(ctx, resource, action, t)
  {
    if ctx.req.Authenticated? {
      IsOwnerTracedAgrees(ctx.req.id, t);
    }
    ObjectPermissionIsDecision(ctx, resource, action, t);
  }
}
