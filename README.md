# RBAC engine, stores and views of the auth project — a Dafny model

This project models the core of a Django REST service. The service authenticates users by email and password, and authorizes requests with a role-based access-control (RBAC) engine:

- **Roles and rules.** Every user holds roles. For each business resource, a role has one access rule made of seven flags: create, plus read/update/delete, each in an "own" scope and an "all" scope.
- **Two levels of checks.** A permission object built from a resource name and an action first answers a collection-level check. It then answers an object-level check. The object-level check grants an `_all` flag outright. It grants a plain flag only on objects the requester owns.

The project is organised as follows:

- **`permissions.dfy` (module `Permissions`).** The decision engine of `auth-project/src/backend/authorization/permissions.py`, as pure predicates over a context. The context holds the requester, the requester's role ids and the access rules. The file also holds `HasRolePermission`.
- **`permissions_traced.dfy`.** The second copy of the engine, `src/backend/authorization/permissions.py`. Its `_is_owner` has redundant `email` branches. A proof shows this copy decides exactly like the first one.
- **`authz_models.dfy`.** The four authorization tables (`Role`, `BusinessResource`, `AccessRule`, `UserRole`) as a class `AuthzStore` holding maps.
  - Name uniqueness and length caps, the two `unique_together` constraints and referential integrity form the invariant `Valid()`. Every insert and delete method preserves it.
  - Deletes follow `on_delete`: `CASCADE` for roles, resources and users, and `SET_NULL` for `assigned_by`.
- **`authz_views.dfy`.** The rest of the admin API:
  - the admin gate (`IsAuthenticated` plus `IsAdminPermission`);
  - the flag-accumulation loop of `check_user_access`, proved against the engine;
  - `perform_create` and `user_roles` of the user-role view set.
- **`mock_models.dfy`.** `MockProduct`, `MockOrder`, their `to_dict`, and the two module-level dictionaries. These form a class `MockDb`: each dictionary is a map plus the sequence of its keys in insertion order, which is the order `values()` yields.
- **`mock_views.dfy`.** The product and order views over `MockDb`:
  - listing, as a filtering loop proved against a recursive reference function `Visible`;
  - creation, with its validation order;
  - retrieval, partial update and deletion.
- **`accounts.dfy`.** The `User` model as a class (`set_password`, `soft_delete`, `full_name`), and the user table with `create_user` and `create_superuser`.
- **`auth_serializers.dfy`.** The registration validators, the registration `create`, and the profile update's field whitelist.
- **`auth_views.dfy`.** The decisions of `login`, `register`, `logout` and `profile`.

Some inputs that the source obtains itself are parameters here:

- the permission context and the requesting user;
- the UUID string and the clock;
- the bcrypt digest that `set_password` stores;
- the outcome of `check_password`;
- the outcome of converting a number field.

The comments of the first engine copy call the collection-level check for read, update and delete a "basic read permission" (`auth-project/src/backend/authorization/permissions.py`, lines 50-51 and 101). The code of `_check_read_permission` filters with `can_read__in=[True, False]`, however, and so it passes whenever any rule of the user's roles applies to the resource, whatever its flags. The model follows the code: see `CheckRead`, `Permissions.OtherCollectionCheck` and `Permissions.AllFalseRulePassesCollectionCheck`.

## Model

| member | source | states |
|---|---|---|
| Permissions.CheckCreate | auth-project/src/backend/authorization/permissions.py:91-98 | passes iff some rule of one of the user's roles on the resource has `can_create`, and then the other collection check passes too |
| Permissions.CheckRead | auth-project/src/backend/authorization/permissions.py:100-107 | passes iff some rule of one of the user's roles exists on the resource, whatever its flags |
| Permissions.HasPermission | auth-project/src/backend/authorization/permissions.py:41-52 | a pass needs an authenticated user and some applicable rule; for any action but create it is exactly the read check |
| Permissions.IsOwner | auth-project/src/backend/authorization/permissions.py:109-116 | with an `owner` attribute present, the `user` attribute is never read (removing it changes nothing), and with neither attribute the check denies; `Permissions.OwnerAttributeFirst` adds that `owner`, else `user`, is compared with the user |
| Permissions.HasObjectPermission | auth-project/src/backend/authorization/permissions.py:54-89 | a pass needs an authenticated user, a read, update or delete action, and a pass of the collection check for that action |
| Permissions.ParseAction | auth-project/src/backend/authorization/permissions.py:47-87 | the action string is compared literally; any name other than the four known ones is an unknown action, and the parse keeps the name |
| Permissions.ObjectPermissionIsDecision | auth-project/src/backend/authorization/permissions.py:54-89 | the if-chain of `has_object_permission` equals one formula: authenticated, scoped action, and (an `_all` flag applies, or a plain flag applies and the requester owns the target) |
| Permissions.UnauthenticatedDenied | auth-project/src/backend/authorization/permissions.py:43-57 | an anonymous requester is denied by both checks, for every action and target |
| Permissions.CreateCollectionCheck | auth-project/src/backend/authorization/permissions.py:47-98 | for create, the collection check passes iff some rule of one of the user's roles on this resource has `can_create` |
| Permissions.OtherCollectionCheck | auth-project/src/backend/authorization/permissions.py:52-107 | for any other action, the collection check passes iff at least one rule of the user's roles exists for the resource, whatever its flags |
| Permissions.AllFalseRulePassesCollectionCheck | auth-project/src/backend/authorization/permissions.py:52-107 | a single all-false rule lets the user past the collection check of a non-create action, while the object check denies every target |
| Permissions.AllFlagAllows | auth-project/src/backend/authorization/permissions.py:69-85 | an applicable rule with the action's `_all` flag makes the object check allow every target |
| Permissions.OwnFlagIsOwnership | auth-project/src/backend/authorization/permissions.py:73-87 | with no applicable `_all` flag and some applicable plain flag (on any role), the object check equals the ownership test |
| Permissions.ObjectCheckDenies | auth-project/src/backend/authorization/permissions.py:89 | the object check denies create and unknown actions, and denies scoped actions when no applicable rule carries the `_all` or the plain flag |
| Permissions.RolelessDenied | auth-project/src/backend/authorization/permissions.py:54-107 | a user with no roles fails both checks whatever the rules |
| Permissions.OwnerAttributeFirst | auth-project/src/backend/authorization/permissions.py:109-116 | ownership reads `owner` when it exists and then ignores `user`; without `owner` it compares `user`; with neither attribute it denies |
| Permissions.AnyFlagGrows | auth-project/src/backend/authorization/permissions.py:69-87 | an `any(...)` over the rules stays true when roles or rules are added |
| Permissions.Monotone | auth-project/src/backend/authorization/permissions.py:41-89 | adding roles or rules never turns an allow into a deny, at either level |
| Permissions.HasRoleSingleName | auth-project/src/backend/authorization/permissions.py:11-26 | a single role name is wrapped into a one-element list; it allows exactly authenticated holders of that role; the object check equals the request check |
| Permissions.HasRoleList | auth-project/src/backend/authorization/permissions.py:14-23 | with a list, allowed iff authenticated and some listed name is a role the user holds |
| PermissionsTraced.IsOwnerTracedAgrees | src/backend/authorization/permissions.py:129-163 | both `hasattr(owner, 'email')` sub-branches compare with the user, so the second `_is_owner` equals the first; with neither attribute it is False |
| PermissionsTraced.TracedCopyAgrees | src/backend/authorization/permissions.py:54-109 | the second copy's object check gives the same decision as the first copy's on every input, and equals the one-formula decision |
| AuthzModels.CapsWithDefaults | auth-project/src/backend/authorization/models.py:58-67 | each flag of a new rule is the given value, or False when not given |
| AuthzModels.NewRuleDefaults | auth-project/src/backend/authorization/models.py:58-67 | a rule created with no flag has all seven flags False |
| AuthzModels.DropRoleRoles | auth-project/src/backend/authorization/models.py:87 | cascading a role's deletion to `UserRole` removes exactly that role from every user's role set |
| AuthzModels.DropUserRoles | auth-project/src/backend/authorization/models.py:86-94 | deleting a user leaves it without roles, other users' roles unchanged, every assignment it did not hold in place, and no assignment naming it as `assigned_by` |
| AuthzModels.DropRoleConsistent | auth-project/src/backend/authorization/models.py:53-87 | deleting a role together with its rules and assignments keeps every constraint of the store |
| AuthzModels.DropResourceConsistent | auth-project/src/backend/authorization/models.py:54 | deleting a resource together with its rules keeps every constraint |
| AuthzModels.DropUserConsistent | auth-project/src/backend/authorization/models.py:86-94 | cascading and nulling on user deletion keeps every constraint |
| AuthzModels.AuthzStore.constructor | auth-project/src/backend/authorization/models.py:8-105 | the empty store satisfies the invariant |
| AuthzModels.AuthzStore.RoleQuery | auth-project/src/backend/authorization/permissions.py:14-23 | the role check over the names of the user's roles holds iff one of the user's assignments points at a role whose name is listed, as the `UserRole` query filters |
| AuthzModels.AuthzStore.ContextQuery | auth-project/src/backend/authorization/permissions.py:60-87 | the engine finds an applicable rule with a flag iff some rule row of one of the requester's roles, on a resource row of that name, has the flag |
| AuthzModels.AuthzStore.ContextReadQuery | auth-project/src/backend/authorization/permissions.py:100-107 | the collection check of a non-create action passes iff some rule row of one of the requester's roles exists on a resource row of that name |
| AuthzModels.JoinQuery | auth-project/src/backend/authorization/permissions.py:94-107 | a rule set built as the join of the rule rows with their resources' names has a matching rule iff some rule row matches |
| AuthzModels.AuthzStore.AddUser | auth-project/src/backend/authorization/models.py:86 | a user row added to the table the foreign keys point into; nothing else changes |
| AuthzModels.AuthzStore.CreateRole | auth-project/src/backend/authorization/models.py:12 | an empty or over-50-character name is rejected, then a taken name; a valid unused name is always accepted, and exactly one new row is inserted under a fresh id |
| AuthzModels.AuthzStore.CreateResource | auth-project/src/backend/authorization/models.py:31 | the same for resources, with a cap of 100: rejected iff the name is invalid or taken |
| AuthzModels.AuthzStore.CreateRule | auth-project/src/backend/authorization/models.py:53-76 | a dangling foreign key is rejected, then a second rule for the same (role, resource); when both rows exist and the pair has no rule, it succeeds and adds one row with defaulted flags |
| AuthzModels.AuthzStore.Assign | auth-project/src/backend/authorization/models.py:86-102 | a missing user, role or granter gives `NotFound`; with all of them present, a role the user already holds gives `DuplicateAssignment`; success iff neither, adding exactly that row |
| AuthzModels.AuthzStore.DeleteRule | auth-project/src/backend/authorization/models.py:46-79 | removes exactly that rule; reports whether it existed |
| AuthzModels.AuthzStore.Revoke | auth-project/src/backend/authorization/models.py:82-105 | removes exactly that assignment; reports whether it existed |
| AuthzModels.AuthzStore.DeleteRole | auth-project/src/backend/authorization/models.py:53-87 | the role, its rules and its assignments go; every user's role set loses that role only; no remaining rule names it |
| AuthzModels.AuthzStore.DeleteResource | auth-project/src/backend/authorization/models.py:54 | the resource and its rules go; roles and assignments stay |
| AuthzModels.AuthzStore.DeleteUser | auth-project/src/backend/authorization/models.py:86-94 | the user's assignments go, those it granted stay with `assigned_by` cleared, and the other users' role sets are unchanged |
| AuthzViews.AccumulateFlags | auth-project/src/backend/authorization/views.py:84-107 | `has_access` is true iff some visited rule grants the action, and `can_access_all` iff some visited rule has its `_all` flag, whatever the visiting order; `can_access_all` implies `has_access` |
| AuthzViews.AdminGate | auth-project/src/backend/authorization/views.py:22-26 | a request passes iff it is authenticated and the user holds a role named `admin`; otherwise 401 for an anonymous request and 403 for any other |
| AuthzViews.CheckUserAccess | auth-project/src/backend/authorization/views.py:53-116 | behind the admin gate: 400 iff a parameter is missing or empty, then 404 for an unknown user or resource name, otherwise always 200 with a report whose flags are those existentials over the user's rules on the resource |
| AuthzViews.ReportMatchesEngine | auth-project/src/backend/authorization/views.py:84-107 | for read, update and delete, `has_access` is "`_all` or plain flag" and `can_access_all` is "`_all` flag"; for create, `has_access` is the create check and `can_access_all` is False; for unknown actions both are False |
| AuthzViews.NoAccessMeansDenied | auth-project/src/backend/authorization/views.py:84-107 | when the report says no access, the object check denies every target |
| AuthzViews.IsAdminExactly | auth-project/src/backend/authorization/views.py:22-26 | `IsAdminPermission` allows exactly authenticated users holding a role named `admin` |
| AuthzViews.CreateUserRole | auth-project/src/backend/authorization/views.py:125-128 | a non-admin request changes nothing; for an admin it succeeds iff the user, the role and the requester exist and the user does not hold the role, and the created assignment has `assigned_by` set to the requesting user |
| AuthzViews.UserRoles | auth-project/src/backend/authorization/views.py:130-145 | behind the admin gate: 400 iff `user_id` is missing, otherwise always 200 with exactly the assignments of that user (none for an unknown user) |
| MockModels.ShortId | src/backend/mock_business/models.py:11 | the id is a prefix of the UUID string, of at most 8 characters, and of exactly 8 for a long enough UUID |
| MockModels.NewProduct | src/backend/mock_business/models.py:10-15 | a new product keeps the given name, price and owner, is stamped with the given time, and its id is a short prefix of the UUID |
| MockModels.NewOrder | src/backend/mock_business/models.py:36-42 | a new order keeps `product_id`, quantity and owner, starts `pending`, is stamped with the given time, and has a short id |
| MockModels.ToDictRoundTrip | src/backend/mock_business/models.py:17-52 | `to_dict` echoes every stored field and reports the owner by email; product and order are rebuilt from it given the owner's key |
| MockModels.Values | src/backend/mock_business/models.py:56-57 | `values()` yields one value per key, in key order |
| MockModels.RemoveKey | auth-project/src/backend/mock_business/views.py:139 | after `del`, the key order holds every other key and not the deleted one |
| MockModels.RemoveKeyDistinct | auth-project/src/backend/mock_business/views.py:139 | deleting a key keeps the key order free of duplicates |
| MockModels.PutIndexed | auth-project/src/backend/mock_business/views.py:67 | `d[k] = v` keeps the key order in step with the map |
| MockModels.RemoveIndexed | auth-project/src/backend/mock_business/views.py:139 | `del d[k]` keeps the key order in step with the map |
| MockModels.MockDb.constructor | src/backend/mock_business/models.py:56-57 | both dictionaries start empty |
| MockModels.MockDb.PutProduct | auth-project/src/backend/mock_business/views.py:67 | stores the product under its id, appends a new key last, leaves the orders alone |
| MockModels.MockDb.RemoveProduct | auth-project/src/backend/mock_business/views.py:139 | removes exactly that key from the products |
| MockModels.MockDb.PutOrder | auth-project/src/backend/mock_business/views.py:209 | stores the order under its id, leaves the products alone |
| MockViews.Visible | auth-project/src/backend/mock_business/views.py:28-32 | the filtered list keeps an object iff the object-level read check passes for it, and is no longer than the input |
| MockViews.ProductDicts | auth-project/src/backend/mock_business/views.py:36 | one dictionary per product, in order, each carrying the product's id and its owner's email, and from which the product is rebuilt given the owner's key |
| MockViews.OrderDicts | auth-project/src/backend/mock_business/views.py:170 | the same for orders |
| MockViews.Filter | auth-project/src/backend/mock_business/views.py:28-32 | the appending loop yields exactly `Visible` of the stored objects, in store order |
| MockViews.ListProducts | auth-project/src/backend/mock_business/views.py:16-37 | 401 when anonymous, 403 iff the collection read check fails, otherwise exactly the visible stored products in store order with `total` its length |
| MockViews.CreateProduct | auth-project/src/backend/mock_business/views.py:39-72 | 401, 403, 400 for a falsy name or price, 400 for a price that is not a positive number; a permitted request with a name and a positive price always succeeds, storing the requester's new product under its id and changing no other entry |
| MockViews.GetProduct | auth-project/src/backend/mock_business/views.py:83-87 | an absent id gives NotFound, a present one its stored product |
| MockViews.RetrieveProduct | auth-project/src/backend/mock_business/views.py:89-97 | 401 for an anonymous request, 404 for an unknown id, 403 for a stored product the object read check refuses; success iff the product exists and the check passes |
| MockViews.UpdateProduct | auth-project/src/backend/mock_business/views.py:99-128 | 404, then 403 with the store unchanged when the object update check fails; a permitted update of a stored product answers 200 unless the price fails to convert, and then 400 with the new name kept; no key is added or removed |
| MockViews.DeleteProduct | auth-project/src/backend/mock_business/views.py:130-141 | 404, then 403 when the object delete check fails; succeeds iff the product exists and the check passes, and then removes exactly that key; otherwise nothing changes |
| MockViews.ListOrders | auth-project/src/backend/mock_business/views.py:149-171 | the order listing, with the same guarantees as the product listing |
| MockViews.Quantity | auth-project/src/backend/mock_business/views.py:182-205 | an absent quantity is 1; a given one is accepted iff it converts to a positive integer |
| MockViews.CreateOrder | auth-project/src/backend/mock_business/views.py:173-211 | checks in order: 400 without `product_id`, 404 for an unknown product, 400 for a bad quantity; a permitted request for a stored product with a good quantity always succeeds and stores one pending order of the requester |
| MockViews.StoredProductListed | auth-project/src/backend/mock_business/views.py:25 | every stored product is among `list(products_db.values())` |
| MockViews.DetailAgreesWithList | auth-project/src/backend/mock_business/views.py:18-97 | a stored product can be retrieved iff the collection check passes and the product is in the listing |
| MockViews.ReadAllSeesEverything | auth-project/src/backend/mock_business/views.py:28-32 | with `can_read_all`, the listing is every stored object |
| MockViews.ReadOwnSeesOwn | auth-project/src/backend/mock_business/views.py:28-32 | with only a plain `can_read`, the listing is exactly the requester's own objects |
| MockViews.UpdateScenario | auth-project/tests/unit/test_mock_business.py:101-131 | under the sample `user` role a requester may update their own product but not someone else's; the `admin` role may update both |
| Accounts.NewRecord | auth-project/src/backend/authentication/models.py:18-43 | an unsaved user is active, not staff and not superuser unless the caller says otherwise, and has no password and no deletion time |
| Accounts.NewUserDefaults | auth-project/src/backend/authentication/models.py:42-43 | with no extra fields, a new user is active and neither staff nor superuser |
| Accounts.NonEmptyParts | auth-project/src/backend/authentication/models.py:100 | `filter(None, parts)` keeps exactly the non-empty parts |
| Accounts.FullNameIsGlued | auth-project/src/backend/authentication/models.py:99-100 | the full name joins last, first and patronymic with single spaces, skipping empty parts |
| Accounts.JoinTwo | auth-project/src/backend/authentication/models.py:100 | joining two parts puts one space between them |
| Accounts.FullNameShape | auth-project/src/backend/authentication/models.py:99-100 | the full name is empty iff all parts are; with all three it is `last first patronymic`; with only a first name it is that name |
| Accounts.FindEmail | src/backend/authentication/views.py:69-93 | the lookup by email finds a saved user holding that email, and finds none iff no saved user does |
| Accounts.User.constructor | auth-project/src/backend/authentication/models.py:18-48 | the new user's fields are the model defaults for the given email and extra fields |
| Accounts.User.SetPassword | auth-project/src/backend/authentication/models.py:66-75 | only the stored digest changes |
| Accounts.User.SoftDelete | auth-project/src/backend/authentication/models.py:86-92 | `is_active` becomes False and `deleted_at` is set; every other field is unchanged |
| Accounts.UserTable.constructor | auth-project/src/backend/authentication/models.py:36 | the empty table has unique emails |
| Accounts.UserTable.Insert | auth-project/src/backend/authentication/models.py:21-36 | the unique email column refuses a taken email and changes nothing; otherwise the user is appended with a fresh id |
| Accounts.UserTable.CreateUser | auth-project/src/backend/authentication/models.py:14-22 | an empty email is refused and nothing is stored; success iff the email is new; the password is set only when one is supplied |
| Accounts.UserTable.CreateSuperuser | auth-project/src/backend/authentication/models.py:24-27 | an empty email fails with the same error as `create_user`; on success the new record is that of `create_user` with `is_staff` and `is_superuser` defaulting to True unless the caller overrides them |
| AuthSerializers.ValidatePassword | auth-project/src/backend/authentication/serializers.py:23-35 | accepts exactly the passwords of at least 8 characters with an ASCII digit and an ASCII letter, and returns them unchanged; the errors come in the order length, digit, letter |
| AuthSerializers.ValidateRegistration | auth-project/src/backend/authentication/serializers.py:6-41 | a refused payload always carries at least one error |
| AuthSerializers.FieldErrorsExact | auth-project/src/backend/authentication/serializers.py:10-35 | each field carries an error iff its own checks fail, with that check's error |
| AuthSerializers.RegistrationAccepts | auth-project/src/backend/authentication/serializers.py:10-41 | a payload is accepted iff the email is given and new, the password strong and equal to its confirmation, and every name at most 150 characters |
| AuthSerializers.MismatchKeyedPassword | auth-project/src/backend/authentication/serializers.py:37-41 | well-formed but different passwords fail with one error, keyed `password` |
| AuthSerializers.TakenEmailRefused | auth-project/src/backend/authentication/serializers.py:17-21 | an email already stored is refused under `email`, whatever the other fields |
| AuthSerializers.CreateAccount | auth-project/src/backend/authentication/serializers.py:43-52 | the saved user has the validated email and names, default flags, and the digest rather than the raw password |
| AuthSerializers.TooLongKeys | auth-project/src/backend/authentication/serializers.py:75-82 | each of the three name fields is judged on its own, no key outside them is ever blamed, and the update is valid iff every sent name is at most 150 characters |
| AuthSerializers.ApplyUpdate | auth-project/src/backend/authentication/serializers.py:75-82 | a partial update changes only `first_name`, `last_name` and `patronymic`; an over-long value fails and changes nothing |
| AuthViews.Login | src/backend/authentication/views.py:54-99 | 400 iff the payload is invalid; 401 with the same error for an unknown email and for a wrong password; the password is checked before `is_active`; an active user with the right password always gets a session for that user |
| AuthViews.FindsTheUser | src/backend/authentication/views.py:69 | in a table with unique emails the lookup finds the one user holding the email |
| AuthViews.LoginDoesNotRevealEmails | src/backend/authentication/views.py:72-97 | an unknown email and a wrong password give the same answer; "deactivated" occurs iff a stored inactive user's password is right |
| AuthViews.Register | src/backend/authentication/views.py:33-51 | succeeds iff the payload validates, and then appends one active user holding the email and the digest and answers with its profile; otherwise the table is unchanged and the errors are those of the validation |
| AuthViews.Logout | src/backend/authentication/views.py:102-120 | whatever blacklisting does, the answer is 200 with the success message |
| AuthViews.Profile | src/backend/authentication/views.py:123-150 | GET reads the profile; PUT answers 400 with no change iff a name is too long, and otherwise writes exactly the sent whitelisted name fields and leaves the rest of the user as it was; DELETE soft-deletes the requesting user and answers 200; the email stays taken |

## Left out

- Django's ORM, querysets and `get_object_or_404`, and the DRF `Response` and status plumbing: queries are filters over maps, sets and sequences, and responses are `Result` values with error datatypes.
- The plain create, list, update and delete endpoints of the authorization view sets: they are the insert and delete methods of `AuthzStore`, and updating a row in place is not modelled. Those endpoints all sit behind `IsAuthenticated` and `IsAdminPermission`. The gate is modelled once, by `AuthzViews.AdminGate` and `AuthzViews.IsAdminExactly`, and is not composed with each store method.
- bcrypt hashing in `set_password` and checking in `check_password`: the digest is a parameter and the check is the function parameter `checkPassword`.
- `check_password` on a user with no password set: the source raises there; the model leaves it to `checkPassword`.
- `normalize_email`: emails are compared as given.
- JWT issuance and blacklisting (`RefreshToken`): an issued pair of tokens is a `Session`, and blacklisting is its outcome `Blacklisting`.
- `float(price)` and `int(quantity)`: the conversion outcome is a parameter, and prices are unbounded reals, not floating point.
- The 500 paths where the conversion raises `TypeError` (a non-string, non-number value) rather than `ValueError`: not modelled.
- `uuid.uuid4()`, `datetime.now()` and `timezone.now()`: the UUID string and the time are parameters.
- `created_at` and `updated_at` of users, and the ISO formatting of timestamps in `to_dict`: not modelled.
- The debug printing of the second engine copy and the commented-out prints.
- Concurrent access to the global dictionaries: out of scope.
- Aliasing of stored products: stored products are values, so an update writes the new product back into the map instead of changing a shared object.
- A `user_id` query parameter that is not a number: it makes the source raise, and the model takes user ids as numbers.
- DRF's trimming of whitespace and its email-format validation, including the 254-character `max_length` the serializer inherits from the model's `EmailField`: not modelled. `CheckEmail` accepts a longer email, and a blank field counts as missing.
- Unauthenticated access to `logout` and `profile`, which the project's default permission classes govern: `Profile` is given the requesting user.
- Declarative glue (admin, serializers of the authorization app, URL configuration, `manage.py`) and the tests: tests are used only as evidence.
