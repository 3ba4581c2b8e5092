/**
 * The four tables of auth-project/src/backend/authorization/models.py (`Role`,
 * `BusinessResource`, `AccessRule`, `UserRole`) as one store of maps from surrogate ids
 * to rows, with the table constraints as the store's invariant and the `on_delete`
 * behaviour as its delete methods. The ids of the user table are kept as a set.
 */
module AuthzModels {
  import opened Wrappers
  import opened Permissions

  type ResourceId = nat
  type RuleId = nat
  type AssignmentId = nat

  /** `Role.name = CharField(max_length=50, unique=True)`. */
  const RoleNameMax := 50
  /** `BusinessResource.name = CharField(max_length=100, unique=True)`. */
  const ResourceNameMax := 100

  datatype Role = Role(name: string, description: string)
  datatype BusinessResource = BusinessResource(name: string, description: string)
  /** An `AccessRule` row: foreign keys to its role and its resource, and its seven flags. */
  datatype RuleRow = RuleRow(role: RoleId, resource: ResourceId, caps: Caps)
  /** A `UserRole` row; `assignedBy` is a nullable foreign key to the user table. */
  datatype UserRole = UserRole(user: UserId, role: RoleId, assignedBy: Option<UserId>)

  datatype StoreError = InvalidName | DuplicateName | DuplicateRule | DuplicateAssignment | NotFound

  /** A required `CharField` of at most `max` characters. */
  predicate ValidName(name: string, max: nat) {
    0 < |name| <= max
  }

  /** The flags of a new rule: those given, and False (the column default) for the others. */
  function CapsWithDefaults(given: map<Flag, bool>): (c: Caps)
    ensures forall f :: FlagOf(c, f) == (f in given && given[f])
  {
    Caps(CanCreate in given && given[CanCreate],
         CanRead in given && given[CanRead], CanReadAll in given && given[CanReadAll],
         CanUpdate in given && given[CanUpdate], CanUpdateAll in given && given[CanUpdateAll],
         CanDelete in given && given[CanDelete], CanDeleteAll in given && given[CanDeleteAll])
  }

  /** A rule created without any flag has every flag False. */
  lemma NewRuleDefaults()
    ensures CapsWithDefaults(map[]) == NoCaps
  {
  }

  // ----- Table constraints, over the maps -----

  ghost predicate RoleNamesOk(roles: map<RoleId, Role>) {
    && (forall i :: i in roles ==> ValidName(roles[i].name, RoleNameMax))
    && (forall i, j :: i in roles && j in roles && roles[i].name == roles[j].name ==> i == j)
  }

  ghost predicate ResourceNamesOk(resources: map<ResourceId, BusinessResource>) {
    && (forall i :: i in resources ==> ValidName(resources[i].name, ResourceNameMax))
    && (forall i, j :: i in resources && j in resources && resources[i].name == resources[j].name ==> i == j)
  }

  /** `unique_together = ('role', 'resource')`. */
  ghost predicate OneRulePerPair(rules: map<RuleId, RuleRow>) {
    forall i, j :: i in rules && j in rules && rules[i].role == rules[j].role && rules[i].resource == rules[j].resource ==> i == j
  }

  /** `unique_together = ('user', 'role')`. */
  ghost predicate OneAssignmentPerPair(assignments: map<AssignmentId, UserRole>) {
    forall i, j :: i in assignments && j in assignments && assignments[i].user == assignments[j].user && assignments[i].role == assignments[j].role ==> i == j
  }

  /** The roles assigned to `u`. */
  function RolesIn(assignments: map<AssignmentId, UserRole>, u: UserId): set<RoleId> {
    set k | k in assignments && assignments[k].user == u :: assignments[k].role
  }

  /** The assignments remaining once a role is deleted (`on_delete=CASCADE`). */
  function DropRoleAssignments(assignments: map<AssignmentId, UserRole>, role: RoleId): map<AssignmentId, UserRole> {
    map k | k in assignments && assignments[k].role != role :: assignments[k]
  }

  /**
   * The assignments remaining once a user is deleted: the user's own go (`CASCADE`), and
   * those the user granted lose their `assigned_by` (`SET_NULL`).
   */
  function DropUserAssignments(assignments: map<AssignmentId, UserRole>, u: UserId): map<AssignmentId, UserRole> {
    map k | k in assignments && assignments[k].user != u ::
      if assignments[k].assignedBy == Some(u) then assignments[k].(assignedBy := None) else assignments[k]
  }

  /** Deleting a role takes it out of every user's role set and leaves that set otherwise alone. */
  lemma DropRoleRoles(assignments: map<AssignmentId, UserRole>, role: RoleId, u: UserId)
    ensures RolesIn(DropRoleAssignments(assignments, role), u) == RolesIn(assignments, u) - {role}
  {
    var after := DropRoleAssignments(assignments, role);
    forall x | x in RolesIn(assignments, u) - {role}
      ensures x in RolesIn(after, u)
    {
      var k :| k in assignments && assignments[k].user == u && assignments[k].role == x;
      assert k in after;
    }
  }

  /**
   * Deleting user `u` leaves `u` without roles, every other user with the same roles, and
   * no assignment naming `u` as the one who granted it; the assignments `u` granted survive.
   */
  lemma DropUserRoles(assignments: map<AssignmentId, UserRole>, u: UserId, v: UserId)
    ensures RolesIn(DropUserAssignments(assignments, u), u) == {}
    ensures v != u ==> RolesIn(DropUserAssignments(assignments, u), v) == RolesIn(assignments, v)
    ensures forall k :: k in DropUserAssignments(assignments, u) ==> DropUserAssignments(assignments, u)[k].assignedBy != Some(u)
    ensures forall k :: k in assignments && assignments[k].user != u ==> k in DropUserAssignments(assignments, u)
  {
    var after := DropUserAssignments(assignments, u);
    if v != u {
      forall x | x in RolesIn(assignments, v)
        ensures x in RolesIn(after, v)
      {
        var k :| k in assignments && assignments[k].user == v && assignments[k].role == x;
        assert k in after && after[k].role == x;
      }
    }
  }

  /** The invariant of the store: the table constraints, foreign keys that point at rows that exist, and fresh ids. */
  ghost predicate Consistent(users: set<UserId>, roles: map<RoleId, Role>, resources: map<ResourceId, BusinessResource>,
                             rules: map<RuleId, RuleRow>, assignments: map<AssignmentId, UserRole>, nextId: nat)
  {
    && RoleNamesOk(roles)
    && ResourceNamesOk(resources)
    && OneRulePerPair(rules)
    && OneAssignmentPerPair(assignments)
    && (forall k :: k in rules ==> rules[k].role in roles && rules[k].resource in resources)
    && (forall k :: k in assignments ==> assignments[k].user in users && assignments[k].role in roles)
    && (forall k :: k in assignments && assignments[k].assignedBy.Some? ==> assignments[k].assignedBy.value in users)
    && (forall k :: k in roles ==> k < nextId)
    && (forall k :: k in resources ==> k < nextId)
    && (forall k :: k in rules ==> k < nextId)
    && (forall k :: k in assignments ==> k < nextId)
  }

  /** The rules remaining once a role is deleted (`on_delete=CASCADE`). */
  function DropRoleRules(rules: map<RuleId, RuleRow>, role: RoleId): map<RuleId, RuleRow> {
    map k | k in rules && rules[k].role != role :: rules[k]
  }

  /** The rules remaining once a resource is deleted (`on_delete=CASCADE`). */
  function DropResourceRules(rules: map<RuleId, RuleRow>, resource: ResourceId): map<RuleId, RuleRow> {
    map k | k in rules && rules[k].resource != resource :: rules[k]
  }

  /** Deleting a role with its rules and assignments keeps the store consistent. */
  lemma DropRoleConsistent(users: set<UserId>, roles: map<RoleId, Role>, resources: map<ResourceId, BusinessResource>,
                           rules: map<RuleId, RuleRow>, assignments: map<AssignmentId, UserRole>, nextId: nat, id: RoleId)
    requires Consistent(users, roles, resources, rules, assignments, nextId)
    ensures Consistent(users, roles - {id}, resources, DropRoleRules(rules, id), DropRoleAssignments(assignments, id), nextId)
  {
  }

  /** Deleting a resource with its rules keeps the store consistent. */
  lemma DropResourceConsistent(users: set<UserId>, roles: map<RoleId, Role>, resources: map<ResourceId, BusinessResource>,
                               rules: map<RuleId, RuleRow>, assignments: map<AssignmentId, UserRole>, nextId: nat, id: ResourceId)
    requires Consistent(users, roles, resources, rules, assignments, nextId)
    ensures Consistent(users, roles, resources - {id}, DropResourceRules(rules, id), assignments, nextId)
  {
  }

  /** Deleting a user, with the cascade and the nulling of `assigned_by`, keeps the store consistent. */
  lemma DropUserConsistent(users: set<UserId>, roles: map<RoleId, Role>, resources: map<ResourceId, BusinessResource>,
                           rules: map<RuleId, RuleRow>, assignments: map<AssignmentId, UserRole>, nextId: nat, u: UserId)
    requires Consistent(users, roles, resources, rules, assignments, nextId)
    ensures Consistent(users - {u}, roles, resources, rules, DropUserAssignments(assignments, u), nextId)
  {
    var after := DropUserAssignments(assignments, u);
    forall i, j | i in after && j in after && after[i].user == after[j].user && after[i].role == after[j].role
      ensures i == j
    {
      assert assignments[i].user == after[i].user && assignments[i].role == after[i].role;
      assert assignments[j].user == after[j].user && assignments[j].role == after[j].role;
    }
  }

  /** A joined rule of one of `roles`, on `resource`, carrying `f` when one is named. */
  predicate Matches(r: AccessRule, roles: set<RoleId>, resource: string, f: Option<Flag>) {
    r.role in roles && r.resource == resource && (f.Some? ==> FlagOf(r.caps, f.value))
  }

  /** A rule set built as the join of the rule rows with their resources has a match iff some row does. */
  lemma JoinQuery(rs: set<AccessRule>, rules: map<RuleId, RuleRow>, resources: map<ResourceId, BusinessResource>,
                  roles: set<RoleId>, resource: string, f: Option<Flag>)
    requires forall k :: k in rules ==> rules[k].resource in resources
    requires forall k :: k in rules ==> AccessRule(rules[k].role, resources[rules[k].resource].name, rules[k].caps) in rs
    requires forall r :: r in rs ==> exists k :: k in rules && r == AccessRule(rules[k].role, resources[rules[k].resource].name, rules[k].caps)
    ensures (exists r :: r in rs && Matches(r, roles, resource, f))
            <==> exists k :: k in rules && Matches(AccessRule(rules[k].role, resources[rules[k].resource].name, rules[k].caps), roles, resource, f)
  {
    if exists r :: r in rs && Matches(r, roles, resource, f) {
      var r :| r in rs && Matches(r, roles, resource, f);
      var k :| k in rules && r == AccessRule(rules[k].role, resources[rules[k].resource].name, rules[k].caps);
    }
  }

  /**
   * The store. `users` stands for the keys of the user table, which the foreign keys of
   * `UserRole` point into; `nextId` hands out fresh surrogate keys.
   */
  class AuthzStore {
    var users: set<UserId>
    var roles: map<RoleId, Role>
    var resources: map<ResourceId, BusinessResource>
    var rules: map<RuleId, RuleRow>
    var assignments: map<AssignmentId, UserRole>
    var nextId: nat

    /** Uniqueness, length caps, foreign keys that point at rows that exist, and fresh ids. */
    ghost predicate Valid()
      reads this
    {
      Consistent(users, roles, resources, rules, assignments, nextId)
    }

    constructor ()
      ensures Valid()
      ensures users == {} && roles == map[] && resources == map[] && rules == map[] && assignments == map[]
    {
      users, roles, resources, rules, assignments, nextId := {}, map[], map[], map[], map[], 0;
    }

    /** The ids of the roles assigned to `u` (`UserRole.objects.filter(user=u).values_list('role_id')`). */
    function RolesOf(u: UserId): set<RoleId>
      reads this
    {
      RolesIn(assignments, u)
    }

    /** The names of the roles assigned to `u`. */
    function RoleNamesOf(u: UserId): (names: set<string>)
      reads this
      requires Valid()
      ensures forall n :: n in names <==> exists r :: r in RolesOf(u) && roles[r].name == n
    {
      set r | r in RolesOf(u) :: roles[r].name
    }

    /** The rule rows joined with their resource's name: what the engine filters. */
    function RuleSet(): (s: set<AccessRule>)
      reads this
      requires Valid()
      ensures forall k :: k in rules ==> AccessRule(rules[k].role, resources[rules[k].resource].name, rules[k].caps) in s
      ensures forall r :: r in s ==> exists k :: k in rules && r == AccessRule(rules[k].role, resources[rules[k].resource].name, rules[k].caps)
    {
      set k | k in rules :: AccessRule(rules[k].role, resources[rules[k].resource].name, rules[k].caps)
    }

    /** What one permission check reads for `req`. */
    function ContextFor(req: Requester): Ctx
      reads this
      requires Valid()
    {
      Ctx(req, if req.Authenticated? then RolesOf(req.id) else {}, RuleSet())
    }

    /**
     * `HasRolePermission`'s query `UserRole.objects.filter(user=u, role__name__in=names).exists()`:
     * the check over the names of the user's roles holds iff one of the user's assignments
     * points at a role whose name is listed.
     */
    lemma RoleQuery(u: UserId, email: string, names: seq<string>)
      requires Valid()
      ensures HasRole(Authenticated(u, email), RoleNamesOf(u), RoleList(names))
              <==> exists k :: k in assignments && assignments[k].user == u && roles[assignments[k].role].name in names
    {
      if exists k :: k in assignments && assignments[k].user == u && roles[assignments[k].role].name in names {
        var k :| k in assignments && assignments[k].user == u && roles[assignments[k].role].name in names;
        assert assignments[k].role in RolesOf(u);
        assert roles[assignments[k].role].name in RoleNamesOf(u);
      }
      if HasRole(Authenticated(u, email), RoleNamesOf(u), RoleList(names)) {
        var n :| n in names && n in RoleNamesOf(u);
        var r :| r in RolesOf(u) && roles[r].name == n;
        var k :| k in assignments && assignments[k].user == u && assignments[k].role == r;
      }
    }

    /**
     * What the engine reads is the join of the tables: `AccessRule.objects.filter(role_id__in=...,
     * resource__name=resource)` finds a rule with flag `f` iff some rule row of one of the
     * requester's roles, on a resource row of that name, has `f`.
     */
    lemma ContextQuery(u: UserId, email: string, resource: string, f: Flag)
      requires Valid()
      ensures AnyFlag(ContextFor(Authenticated(u, email)), resource, f)
              <==> exists k :: k in rules && rules[k].role in RolesOf(u)
                               && resources[rules[k].resource].name == resource && FlagOf(rules[k].caps, f)
    {
      JoinQuery(RuleSet(), rules, resources, RolesOf(u), resource, Some(f));
    }

    /** The collection check of a non-create action passes iff such a rule row exists at all, whatever its flags. */
    lemma ContextReadQuery(u: UserId, email: string, resource: string)
      requires Valid()
      ensures CheckRead(ContextFor(Authenticated(u, email)), resource)
              <==> exists k :: k in rules && rules[k].role in RolesOf(u) && resources[rules[k].resource].name == resource
    {
      JoinQuery(RuleSet(), rules, resources, RolesOf(u), resource, None);
      var ctx := ContextFor(Authenticated(u, email));
      if CheckRead(ctx, resource) {
        var rule :| rule in ctx.rules && Applies(ctx, resource, rule) && (rule.caps.canRead in {true, false});
        assert Matches(rule, RolesOf(u), resource, None);
      }
    }

    // ----- Inserts -----

    method AddUser(u: UserId)
      requires Valid()
      modifies this
      ensures Valid()
      ensures users == old(users) + {u}
      ensures roles == old(roles) && resources == old(resources) && rules == old(rules) && assignments == old(assignments)
    {
      users := users + {u};
    }

    /** Insert a role; a missing or over-long name, or one already taken, is rejected. */
    method CreateRole(name: string, description: string) returns (r: Result<RoleId, StoreError>)
      requires Valid()
      modifies this
      ensures Valid()
      ensures !ValidName(name, RoleNameMax) ==> r == Failure(InvalidName)
      ensures ValidName(name, RoleNameMax) && (exists k :: k in old(roles) && old(roles)[k].name == name) ==> r == Failure(DuplicateName)
      ensures ValidName(name, RoleNameMax) && !(exists k :: k in old(roles) && old(roles)[k].name == name) ==> r.Success?
      ensures r.Failure? ==> roles == old(roles)
      ensures r.Success? ==> r.value !in old(roles) && roles == old(roles)[r.value := Role(name, description)]
      ensures r.Success? || r == Failure(InvalidName) || r == Failure(DuplicateName)
      ensures users == old(users) && resources == old(resources) && rules == old(rules) && assignments == old(assignments)
    {
      if !ValidName(name, RoleNameMax) {
        return Failure(InvalidName);
      }
      if exists k | k in roles :: roles[k].name == name {
        return Failure(DuplicateName);
      }
      var id := nextId;
      roles := roles[id := Role(name, description)];
      nextId := nextId + 1;
      r := Success(id);
    }

    /** Insert a business resource; the name rules are those of roles, with a cap of 100. */
    method CreateResource(name: string, description: string) returns (r: Result<ResourceId, StoreError>)
      requires Valid()
      modifies this
      ensures Valid()
      ensures !ValidName(name, ResourceNameMax) ==> r == Failure(InvalidName)
      ensures ValidName(name, ResourceNameMax) && (exists k :: k in old(resources) && old(resources)[k].name == name) ==> r == Failure(DuplicateName)
      ensures ValidName(name, ResourceNameMax) && !(exists k :: k in old(resources) && old(resources)[k].name == name) ==> r.Success?
      ensures r.Failure? ==> resources == old(resources)
      ensures r.Success? ==> r.value !in old(resources) && resources == old(resources)[r.value := BusinessResource(name, description)]
      ensures r.Success? || r == Failure(InvalidName) || r == Failure(DuplicateName)
      ensures users == old(users) && roles == old(roles) && rules == old(rules) && assignments == old(assignments)
    {
      if !ValidName(name, ResourceNameMax) {
        return Failure(InvalidName);
      }
      if exists k | k in resources :: resources[k].name == name {
        return Failure(DuplicateName);
      }
      var id := nextId;
      resources := resources[id := BusinessResource(name, description)];
      nextId := nextId + 1;
      r := Success(id);
    }

    /** Insert a rule for (role, resource), with the given flags and False for the rest; a second rule for the pair is rejected. */
    method CreateRule(role: RoleId, resource: ResourceId, given: map<Flag, bool>) returns (r: Result<RuleId, StoreError>)
      requires Valid()
      modifies this
      ensures Valid()
      ensures (role !in old(roles) || resource !in old(resources)) ==> r == Failure(NotFound)
      ensures role in old(roles) && resource in old(resources)
              && (exists k :: k in old(rules) && old(rules)[k].role == role && old(rules)[k].resource == resource)
              ==> r == Failure(DuplicateRule)
      ensures role in old(roles) && resource in old(resources)
              && !(exists k :: k in old(rules) && old(rules)[k].role == role && old(rules)[k].resource == resource)
              ==> r.Success?
      ensures r.Failure? ==> rules == old(rules)
      ensures r.Success? ==> r.value !in old(rules) && rules == old(rules)[r.value := RuleRow(role, resource, CapsWithDefaults(given))]
      ensures r.Success? || r == Failure(NotFound) || r == Failure(DuplicateRule)
      ensures users == old(users) && roles == old(roles) && resources == old(resources) && assignments == old(assignments)
    {
      if role !in roles || resource !in resources {
        return Failure(NotFound);
      }
      if exists k | k in rules :: rules[k].role == role && rules[k].resource == resource {
        return Failure(DuplicateRule);
      }
      var id := nextId;
      rules := rules[id := RuleRow(role, resource, CapsWithDefaults(given))];
      nextId := nextId + 1;
      r := Success(id);
    }

    /** Insert a `UserRole`; a user holding the role already is rejected. */
    method Assign(user: UserId, role: RoleId, assignedBy: Option<UserId>) returns (r: Result<AssignmentId, StoreError>)
      requires Valid()
      modifies this
      ensures Valid()
      ensures (user !in old(users) || role !in old(roles) || (assignedBy.Some? && assignedBy.value !in old(users)))
              ==> r == Failure(NotFound)
      ensures r.Success? <==> user in old(users) && role in old(roles) && (assignedBy.Some? ==> assignedBy.value in old(users))
                              && role !in old(RolesOf(user))
      ensures user in old(users) && role in old(roles) && (assignedBy.Some? ==> assignedBy.value in old(users))
              && role in old(RolesOf(user))
              ==> r == Failure(DuplicateAssignment)
      ensures r.Failure? ==> assignments == old(assignments)
      ensures r.Success? ==> r.value !in old(assignments) && assignments == old(assignments)[r.value := UserRole(user, role, assignedBy)]
      ensures r.Success? || r == Failure(NotFound) || r == Failure(DuplicateAssignment)
      ensures users == old(users) && roles == old(roles) && resources == old(resources) && rules == old(rules)
    {
      if user !in users || role !in roles || (assignedBy.Some? && assignedBy.value !in users) {
        return Failure(NotFound);
      }
      if exists k | k in assignments :: assignments[k].user == user && assignments[k].role == role {
        return Failure(DuplicateAssignment);
      }
      var id := nextId;
      assignments := assignments[id := UserRole(user, role, assignedBy)];
      nextId := nextId + 1;
      r := Success(id);
    }

    // ----- Deletes -----

    /** Delete a rule row; an unknown id changes nothing. */
    method DeleteRule(id: RuleId) returns (found: bool)
      requires Valid()
      modifies this
      ensures Valid()
      ensures found == (id in old(rules))
      ensures rules == old(rules) - {id}
      ensures users == old(users) && roles == old(roles) && resources == old(resources) && assignments == old(assignments)
    {
      found := id in rules;
      rules := rules - {id};
    }

    /** Revoke an assignment; an unknown id changes nothing. */
    method Revoke(id: AssignmentId) returns (found: bool)
      requires Valid()
      modifies this
      ensures Valid()
      ensures found == (id in old(assignments))
      ensures assignments == old(assignments) - {id}
      ensures users == old(users) && roles == old(roles) && resources == old(resources) && rules == old(rules)
    {
      found := id in assignments;
      assignments := assignments - {id};
    }

    /** Delete a role with its rules and its assignments (`on_delete=CASCADE` on both foreign keys). */
    method DeleteRole(id: RoleId) returns (found: bool)
      requires Valid()
      modifies this
      ensures Valid()
      ensures found == (id in old(roles))
      ensures roles == old(roles) - {id}
      ensures rules == DropRoleRules(old(rules), id)
      ensures assignments == DropRoleAssignments(old(assignments), id)
      ensures forall u :: RolesOf(u) == old(RolesOf(u)) - {id}
      ensures forall r :: r in RuleSet() ==> r.role != id
      ensures users == old(users) && resources == old(resources)
    {
      found := id in roles;
      ghost var before := assignments;
      DropRoleConsistent(users, roles, resources, rules, assignments, nextId, id);
      roles, rules, assignments := roles - {id}, DropRoleRules(rules, id), DropRoleAssignments(assignments, id);
      forall u ensures RolesOf(u) == RolesIn(before, u) - {id} {
        DropRoleRoles(before, id, u);
      }
    }

    /** Delete a business resource with its rules (`on_delete=CASCADE`). */
    method DeleteResource(id: ResourceId) returns (found: bool)
      requires Valid()
      modifies this
      ensures Valid()
      ensures found == (id in old(resources))
      ensures resources == old(resources) - {id}
      ensures rules == DropResourceRules(old(rules), id)
      ensures users == old(users) && roles == old(roles) && assignments == old(assignments)
    {
      found := id in resources;
      DropResourceConsistent(users, roles, resources, rules, assignments, nextId, id);
      resources, rules := resources - {id}, DropResourceRules(rules, id);
    }

    /**
     * Delete a user: its own assignments go (`CASCADE` on `UserRole.user`), the assignments
     * it granted stay with `assigned_by` cleared (`SET_NULL`).
     */
    method DeleteUser(u: UserId) returns (found: bool)
      requires Valid()
      modifies this
      ensures Valid()
      ensures found == (u in old(users))
      ensures users == old(users) - {u}
      ensures assignments == DropUserAssignments(old(assignments), u)
      ensures RolesOf(u) == {}
      ensures forall v :: v != u ==> RolesOf(v) == old(RolesOf(v))
      ensures forall k :: k in old(assignments) && old(assignments)[k].user != u ==> k in assignments
      ensures roles == old(roles) && resources == old(resources) && rules == old(rules)
    {
      found := u in users;
      ghost var before := assignments;
      DropUserConsistent(users, roles, resources, rules, assignments, nextId, u);
      users, assignments := users - {u}, DropUserAssignments(assignments, u);
      DropUserRoles(before, u, u);
      forall v | v != u ensures RolesOf(v) == RolesIn(before, v) {
        DropUserRoles(before, u, v);
      }
    }
  }
}
