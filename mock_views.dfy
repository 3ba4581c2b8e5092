/**
 * The sample business views of auth-project/src/backend/mock_business/views.py, which guard
 * `products_db` and `orders_db` with `ResourceAccessPermission`. The permission context
 * `ctx` is what the engine reads from the authorization tables for the requesting user
 * (`AuthzStore.ContextFor`). Every view has `permission_classes = [IsAuthenticated]`, so an
 * anonymous request is refused before the view body runs.
 */
module MockViews {
  import opened Wrappers
  import opened Permissions
  import opened MockModels

  /** The two resource names the views pass to `ResourceAccessPermission`. */
  const ProductsResource := "products"
  const OrdersResource := "orders"

  /** Why a request body was refused with HTTP 400. */
  datatype BadInput = NameAndPriceRequired | PriceNotPositive | PriceNotNumber | ProductIdRequired | QuantityNotPositive

  /** HTTP 401 (from `IsAuthenticated`), 403 (`PermissionDenied`), 404 (`NotFound` or the order view's own 404), 400. */
  datatype ApiError = NotAuthenticated | Forbidden | NotFound | BadRequest(why: BadInput)

  /**
   * A body field that is converted with `float(...)` or `int(...)`: `Falsy` when it is
   * missing, null, empty or zero; otherwise the outcome of the conversion, None when it
   * raises `ValueError`.
   */
  datatype NumberField<T> = Falsy | Truthy(parsed: Option<T>)

  /** `quantity = request.data.get('quantity', 1)`: absent, or present and converted with `int(...)`. */
  datatype QuantityField = QuantityAbsent | QuantityGiven(parsed: Option<int>)

  datatype ProductListing = ProductListing(total: nat, products: seq<ProductDict>)
  datatype OrderListing = OrderListing(total: nat, orders: seq<OrderDict>)

  /**
   * The objects of `xs` the requester may read, in their order: the filter of the list
   * views, which keeps an object iff the object-level read check passes for its owner.
   */
  function Visible<T(!new)>(ctx: Ctx, resource: string, ownerOf: T -> Account, xs: seq<T>): (r: seq<T>)
    ensures |r| <= |xs|
    ensures forall x :: x in r <==> x in xs && HasObjectPermission(ctx, resource, Read, OwnedTarget(ownerOf(x)))
  {
    if xs == [] then []
    else
      var last := xs[|xs| - 1];
      Visible(ctx, resource, ownerOf, xs[..|xs| - 1])
      + (if HasObjectPermission(ctx, resource, Read, OwnedTarget(ownerOf(last))) then [last] else [])
  }

  /** `[p.to_dict() for p in ps]`. */
  function ProductDicts(ps: seq<Product>): (ds: seq<ProductDict>)
    ensures |ds| == |ps|
    ensures forall i :: 0 <= i < |ps| ==> ds[i].id == ps[i].id && ds[i].owner == ps[i].owner.email
    ensures forall i :: 0 <= i < |ps| ==> ProductFromDict(ds[i], ps[i].owner.id) == ps[i]
  {
    seq(|ps|, i requires 0 <= i < |ps| => ProductToDict(ps[i]))
  }

  /** `[o.to_dict() for o in os]`. */
  function OrderDicts(os: seq<Order>): (ds: seq<OrderDict>)
    ensures |ds| == |os|
    ensures forall i :: 0 <= i < |os| ==> ds[i].id == os[i].id && ds[i].owner == os[i].owner.email
    ensures forall i :: 0 <= i < |os| ==> OrderFromDict(ds[i], os[i].owner.id) == os[i]
  {
    seq(|os|, i requires 0 <= i < |os| => OrderToDict(os[i]))
  }

  /** The filtering loop of both list views. */
  method Filter<T(!new)>(ctx: Ctx, resource: string, ownerOf: T -> Account, all: seq<T>) returns (filtered: seq<T>)
    ensures filtered == Visible(ctx, resource, ownerOf, all)
  {
    filtered := [];
    var i := 0;
    while i < |all|
      invariant 0 <= i <= |all|
      invariant filtered == Visible(ctx, resource, ownerOf, all[..i])
    {
      var x := all[i];
      assert all[..i + 1][..i] == all[..i];
      if HasObjectPermission(ctx, resource, Read, OwnedTarget(ownerOf(x))) {
        filtered := filtered + [x];
      }
      i := i + 1;
    }
    assert all[..i] == all;
  }

  /** `ProductListView.get`: the collection check, then the stored products the object check lets through. */
  method ListProducts(db: MockDb, ctx: Ctx) returns (r: Result<ProductListing, ApiError>)
    requires db.Valid()
    ensures ctx.req.Anonymous? ==> r == Failure(NotAuthenticated)
    ensures ctx.req.Authenticated? && !HasPermission(ctx, ProductsResource, Read) ==> r == Failure(Forbidden)
    ensures r.Success? <==> HasPermission(ctx, ProductsResource, Read)
    ensures r.Success? ==>
      && r.value.total == |r.value.products|
      && r.value.products == ProductDicts(Visible(ctx, ProductsResource, ProductOwner, db.Products()))
  {
    if ctx.req.Anonymous? {
      return Failure(NotAuthenticated);
    }
    if !HasPermission(ctx, ProductsResource, Read) {
      return Failure(Forbidden);
    }
    var all := db.Products();
    var filtered := Filter(ctx, ProductsResource, ProductOwner, all);
    r := Success(ProductListing(|filtered|, ProductDicts(filtered)));
  }

  /**
   * `ProductListView.post`: the create check, then 400 unless both `name` and `price` are
   * given, then 400 unless the price converts to a positive number; on success the new
   * product, owned by the requester, is stored under its short id.
   */
  method CreateProduct(db: MockDb, ctx: Ctx, name: Option<string>, price: NumberField<real>, uuid: string, now: Timestamp)
    returns (r: Result<ProductDict, ApiError>)
    requires db.Valid()
    modifies db
    ensures db.Valid()
    ensures ctx.req.Anonymous? ==> r == Failure(NotAuthenticated)
    ensures ctx.req.Authenticated? && !HasPermission(ctx, ProductsResource, Create) ==> r == Failure(Forbidden)
    ensures HasPermission(ctx, ProductsResource, Create) && !(Given(name) && price.Truthy?)
            ==> r == Failure(BadRequest(NameAndPriceRequired))
    ensures HasPermission(ctx, ProductsResource, Create) && Given(name) && price.Truthy?
            && !(price.parsed.Some? && price.parsed.value > 0.0)
            ==> r == Failure(BadRequest(PriceNotPositive))
    ensures HasPermission(ctx, ProductsResource, Create) && Given(name) && price.Truthy?
            && price.parsed.Some? && price.parsed.value > 0.0
            ==> r.Success?
    ensures r.Failure? ==> db.products == old(db.products) && db.productKeys == old(db.productKeys)
    ensures r.Success? ==>
      && ctx.req.Authenticated? && name.Some? && price.Truthy? && price.parsed.Some?
      && var p := NewProduct(uuid, name.value, price.parsed.value, Account(ctx.req.id, ctx.req.email), now);
         && r.value == ProductToDict(p)
         && db.products == old(db.products)[p.id := p]
         && db.productKeys == PutKey(old(db.productKeys), old(db.products), p.id)
    ensures db.orders == old(db.orders) && db.orderKeys == old(db.orderKeys)
  {
    if ctx.req.Anonymous? {
      return Failure(NotAuthenticated);
    }
    if !HasPermission(ctx, ProductsResource, Create) {
      return Failure(Forbidden);
    }
    if !Given(name) || price.Falsy? {
      return Failure(BadRequest(NameAndPriceRequired));
    }
    if price.parsed.None? || price.parsed.value <= 0.0 {
      return Failure(BadRequest(PriceNotPositive));
    }
    var p := NewProduct(uuid, name.value, price.parsed.value, Account(ctx.req.id, ctx.req.email), now);
    db.PutProduct(p);
    r := Success(ProductToDict(p));
  }

  /** `ProductDetailView.get_product`: the stored product, or 404. */
  function GetProduct(db: MockDb, id: string): (r: Result<Product, ApiError>)
    reads db
    requires db.Valid()
    ensures r.Success? <==> id in db.products
    ensures r.Success? ==> r.value == db.products[id] && r.value.id == id
    ensures r.Failure? ==> r.error == NotFound
  {
    if id in db.products then Success(db.products[id]) else Failure(NotFound)
  }

  /** `ProductDetailView.get`: 404 before 403; no collection check. */
  function RetrieveProduct(db: MockDb, ctx: Ctx, id: string): (r: Result<ProductDict, ApiError>)
    reads db
    requires db.Valid()
    ensures ctx.req.Anonymous? ==> r == Failure(NotAuthenticated)
    ensures ctx.req.Authenticated? && id !in db.products ==> r == Failure(NotFound)
    ensures ctx.req.Authenticated? && id in db.products
            && !HasObjectPermission(ctx, ProductsResource, Read, OwnedTarget(db.products[id].owner))
            ==> r == Failure(Forbidden)
    ensures r.Success? <==> id in db.products && HasObjectPermission(ctx, ProductsResource, Read, OwnedTarget(db.products[id].owner))
    ensures r.Success? ==> r.value == ProductToDict(db.products[id])
  {
    if ctx.req.Anonymous? then Failure(NotAuthenticated)
    else match GetProduct(db, id)
      case Failure(e) => Failure(e)
      case Success(p) =>
        if HasObjectPermission(ctx, ProductsResource, Read, OwnedTarget(p.owner)) then Success(ProductToDict(p))
        else Failure(Forbidden)
  }

  /**
   * `ProductDetailView.put`: 404, then the object-level update check, then a partial update
   * of the stored object. A given `name` is written first, so when the price then fails to
   * convert the answer is 400 but the new name stays. The price is not checked for
   * positivity here.
   */
  method UpdateProduct(db: MockDb, ctx: Ctx, id: string, name: Option<string>, price: NumberField<real>)
    returns (r: Result<ProductDict, ApiError>)
    requires db.Valid()
    modifies db
    ensures db.Valid()
    ensures ctx.req.Anonymous? ==> r == Failure(NotAuthenticated)
    ensures ctx.req.Authenticated? && id !in old(db.products) ==> r == Failure(NotFound)
    ensures id in old(db.products) && !HasObjectPermission(ctx, ProductsResource, Update, OwnedTarget(old(db.products[id]).owner))
            ==> r.Failure? && db.products == old(db.products)
    ensures ctx.req.Authenticated? && id in old(db.products)
            && !HasObjectPermission(ctx, ProductsResource, Update, OwnedTarget(old(db.products[id]).owner))
            ==> r == Failure(Forbidden)
    ensures db.productKeys == old(db.productKeys) && db.products.Keys == old(db.products.Keys)
    ensures db.orders == old(db.orders) && db.orderKeys == old(db.orderKeys)
    ensures r.Success? || r == Failure(BadRequest(PriceNotNumber)) ==>
      && id in old(db.products)
      && HasObjectPermission(ctx, ProductsResource, Update, OwnedTarget(old(db.products[id]).owner))
      && var p := old(db.products[id]);
         var named := if Given(name) then p.(name := name.value) else p;
         var priced := if price.Truthy? && price.parsed.Some? then named.(price := price.parsed.value) else named;
         && (r.Success? <==> price.Falsy? || price.parsed.Some?)
         && db.products == old(db.products)[id := priced]
         && (r.Success? ==> r.value == ProductToDict(priced))
    ensures r.Failure? && r != Failure(BadRequest(PriceNotNumber)) ==> db.products == old(db.products)
    ensures id in old(db.products) && HasObjectPermission(ctx, ProductsResource, Update, OwnedTarget(old(db.products[id]).owner))
            ==> r.Success? || r == Failure(BadRequest(PriceNotNumber))
  {
    if ctx.req.Anonymous? {
      return Failure(NotAuthenticated);
    }
    var found := GetProduct(db, id);
    if found.Failure? {
      return Failure(found.error);
    }
    var p := found.value;
    if !HasObjectPermission(ctx, ProductsResource, Update, OwnedTarget(p.owner)) {
      return Failure(Forbidden);
    }
    if Given(name) {
      p := p.(name := name.value);
      db.products := db.products[id := p];
    }
    if price.Truthy? {
      if price.parsed.None? {
        return Failure(BadRequest(PriceNotNumber));
      }
      p := p.(price := price.parsed.value);
      db.products := db.products[id := p];
    }
    r := Success(ProductToDict(p));
  }

  /** `ProductDetailView.delete`: 404, then the object-level delete check, then `del products_db[id]`. */
  method DeleteProduct(db: MockDb, ctx: Ctx, id: string) returns (r: Result<(), ApiError>)
    requires db.Valid()
    modifies db
    ensures db.Valid()
    ensures ctx.req.Anonymous? ==> r == Failure(NotAuthenticated)
    ensures ctx.req.Authenticated? && id !in old(db.products) ==> r == Failure(NotFound)
    ensures ctx.req.Authenticated? && id in old(db.products)
            && !HasObjectPermission(ctx, ProductsResource, Delete, OwnedTarget(old(db.products[id]).owner))
            ==> r == Failure(Forbidden)
    ensures r.Success? <==> ctx.req.Authenticated? && id in old(db.products)
                            && HasObjectPermission(ctx, ProductsResource, Delete, OwnedTarget(old(db.products[id]).owner))
    ensures r.Success? ==> db.products == old(db.products) - {id} && db.productKeys == RemoveKey(old(db.productKeys), id)
    ensures r.Failure? ==> db.products == old(db.products) && db.productKeys == old(db.productKeys)
    ensures db.orders == old(db.orders) && db.orderKeys == old(db.orderKeys)
  {
    if ctx.req.Anonymous? {
      return Failure(NotAuthenticated);
    }
    var found := GetProduct(db, id);
    if found.Failure? {
      return Failure(found.error);
    }
    if !HasObjectPermission(ctx, ProductsResource, Delete, OwnedTarget(found.value.owner)) {
      return Failure(Forbidden);
    }
    db.RemoveProduct(id);
    r := Success(());
  }

  /** `OrderListView.get`: the collection check, then the stored orders the object check lets through. */
  method ListOrders(db: MockDb, ctx: Ctx) returns (r: Result<OrderListing, ApiError>)
    requires db.Valid()
    ensures ctx.req.Anonymous? ==> r == Failure(NotAuthenticated)
    ensures ctx.req.Authenticated? && !HasPermission(ctx, OrdersResource, Read) ==> r == Failure(Forbidden)
    ensures r.Success? <==> HasPermission(ctx, OrdersResource, Read)
    ensures r.Success? ==>
      && r.value.total == |r.value.orders|
      && r.value.orders == OrderDicts(Visible(ctx, OrdersResource, OrderOwner, db.Orders()))
  {
    if ctx.req.Anonymous? {
      return Failure(NotAuthenticated);
    }
    if !HasPermission(ctx, OrdersResource, Read) {
      return Failure(Forbidden);
    }
    var all := db.Orders();
    var filtered := Filter(ctx, OrdersResource, OrderOwner, all);
    r := Success(OrderListing(|filtered|, OrderDicts(filtered)));
  }

  /** The quantity `OrderListView.post` orders, or None when it answers 400 for it. */
  function Quantity(q: QuantityField): (n: Option<int>)
    ensures q.QuantityAbsent? ==> n == Some(1)
    ensures n.Some? ==> n.value > 0
    ensures q.QuantityGiven? ==> (n.Some? <==> q.parsed.Some? && q.parsed.value > 0)
  {
    match q
    case QuantityAbsent => Some(1)
    case QuantityGiven(parsed) => if parsed.Some? && parsed.value > 0 then parsed else None
  }

  /**
   * `OrderListView.post`: the create check; then 400 without `product_id`, 404 for an
   * unknown product, 400 for a quantity that is not a positive integer (1 when absent); on
   * success a pending order of the requester is stored under its short id.
   */
  method CreateOrder(db: MockDb, ctx: Ctx, productId: Option<string>, quantity: QuantityField, uuid: string, now: Timestamp)
    returns (r: Result<OrderDict, ApiError>)
    requires db.Valid()
    modifies db
    ensures db.Valid()
    ensures ctx.req.Anonymous? ==> r == Failure(NotAuthenticated)
    ensures ctx.req.Authenticated? && !HasPermission(ctx, OrdersResource, Create) ==> r == Failure(Forbidden)
    ensures HasPermission(ctx, OrdersResource, Create) && !Given(productId) ==> r == Failure(BadRequest(ProductIdRequired))
    ensures HasPermission(ctx, OrdersResource, Create) && Given(productId) && productId.value !in db.products
            ==> r == Failure(NotFound)
    ensures HasPermission(ctx, OrdersResource, Create) && Given(productId) && productId.value in db.products
            && Quantity(quantity).None?
            ==> r == Failure(BadRequest(QuantityNotPositive))
    ensures HasPermission(ctx, OrdersResource, Create) && Given(productId) && productId.value in db.products
            && Quantity(quantity).Some?
            ==> r.Success?
    ensures r.Failure? ==> db.orders == old(db.orders) && db.orderKeys == old(db.orderKeys)
    ensures r.Success? ==>
      && ctx.req.Authenticated? && productId.Some? && productId.value in db.products && Quantity(quantity).Some?
      && var o := NewOrder(uuid, productId.value, Quantity(quantity).value, Account(ctx.req.id, ctx.req.email), now);
         && r.value == OrderToDict(o)
         && db.orders == old(db.orders)[o.id := o]
         && db.orderKeys == PutKey(old(db.orderKeys), old(db.orders), o.id)
    ensures db.products == old(db.products) && db.productKeys == old(db.productKeys)
  {
    if ctx.req.Anonymous? {
      return Failure(NotAuthenticated);
    }
    if !HasPermission(ctx, OrdersResource, Create) {
      return Failure(Forbidden);
    }
    if !Given(productId) {
      return Failure(BadRequest(ProductIdRequired));
    }
    if productId.value !in db.products {
      return Failure(NotFound);
    }
    var n := Quantity(quantity);
    if n.None? {
      return Failure(BadRequest(QuantityNotPositive));
    }
    var o := NewOrder(uuid, productId.value, n.value, Account(ctx.req.id, ctx.req.email), now);
    db.PutOrder(o);
    r := Success(OrderToDict(o));
  }

  // ----- Properties of the views -----

  /** Every stored product appears in `list(products_db.values())`. */
  lemma StoredProductListed(db: MockDb, id: string)
    requires db.Valid() && id in db.products
    ensures db.products[id] in db.Products()
  {
    var i :| 0 <= i < |db.productKeys| && db.productKeys[i] == id;
    assert db.Products()[i] == db.products[id];
  }

  /**
   * The detail view and the list view agree: a stored product can be retrieved iff the
   * collection check passes and the product is in the listing.
   */
  lemma DetailAgreesWithList(db: MockDb, ctx: Ctx, id: string)
    requires db.Valid() && id in db.products
    ensures RetrieveProduct(db, ctx, id).Success?
            <==> HasPermission(ctx, ProductsResource, Read)
                 && db.products[id] in Visible(ctx, ProductsResource, ProductOwner, db.Products())
  {
    StoredProductListed(db, id);
    var t := OwnedTarget(db.products[id].owner);
    if HasObjectPermission(ctx, ProductsResource, Read, t) {
      var f := if AnyFlag(ctx, ProductsResource, CanReadAll) then CanReadAll else CanRead;
      var rule :| rule in ctx.rules && Applies(ctx, ProductsResource, rule) && FlagOf(rule.caps, f);
      assert rule.caps.canRead in {true, false};
    }
  }

  /** A requester with `can_read_all` on a resource sees every stored object. */
  lemma ReadAllSeesEverything<T(!new)>(ctx: Ctx, resource: string, ownerOf: T -> Account, xs: seq<T>)
    requires ctx.req.Authenticated? && AnyFlag(ctx, resource, CanReadAll)
    ensures Visible(ctx, resource, ownerOf, xs) == xs
  {
    if xs != [] {
      ReadAllSeesEverything(ctx, resource, ownerOf, xs[..|xs| - 1]);
      assert HasObjectPermission(ctx, resource, Read, OwnedTarget(ownerOf(xs[|xs| - 1])));
      assert xs[..|xs| - 1] + [xs[|xs| - 1]] == xs;
    }
  }

  /** A requester with only the plain `can_read` flag sees exactly the objects they own. */
  lemma ReadOwnSeesOwn<T(!new)>(ctx: Ctx, resource: string, ownerOf: T -> Account, xs: seq<T>)
    requires ctx.req.Authenticated?
    requires !AnyFlag(ctx, resource, CanReadAll) && AnyFlag(ctx, resource, CanRead)
    ensures forall x :: x in Visible(ctx, resource, ownerOf, xs) <==> x in xs && ownerOf(x).id == ctx.req.id
  {
    forall x | x in xs
      ensures HasObjectPermission(ctx, resource, Read, OwnedTarget(ownerOf(x))) <==> ownerOf(x).id == ctx.req.id
    {
      ObjectPermissionIsDecision(ctx, resource, Read, OwnedTarget(ownerOf(x)));
    }
  }

  // ----- The roles of the sample deployment -----

  const UserRoleId: RoleId := 2
  const AdminRoleId: RoleId := 1
  /** The `user` role on products: create, and read, update and delete its own. */
  const UserCaps := Caps(true, true, false, true, false, true, false)
  /** The `admin` role on products: every flag. */
  const AdminCaps := Caps(true, true, true, true, true, true, true)
  const ProductRules := {AccessRule(UserRoleId, ProductsResource, UserCaps), AccessRule(AdminRoleId, ProductsResource, AdminCaps)}

  /**
   * The sample deployment: under the `user` role a requester may update a product they
   * own and is refused with 403 for a product owned by someone else, while the `admin`
   * role may update both.
   */
  lemma UpdateScenario(x: Account, y: Account, p: Product, q: Product)
    requires x.id != y.id && p.owner == x && q.owner == y
    ensures HasObjectPermission(Ctx(Authenticated(x.id, x.email), {UserRoleId}, ProductRules), ProductsResource, Update, OwnedTarget(p.owner))
    ensures !HasObjectPermission(Ctx(Authenticated(x.id, x.email), {UserRoleId}, ProductRules), ProductsResource, Update, OwnedTarget(q.owner))
    ensures HasObjectPermission(Ctx(Authenticated(x.id, x.email), {AdminRoleId}, ProductRules), ProductsResource, Update, OwnedTarget(q.owner))
  {
    var user := Ctx(Authenticated(x.id, x.email), {UserRoleId}, ProductRules);
    var admin := Ctx(Authenticated(x.id, x.email), {AdminRoleId}, ProductRules);
    assert Applies(user, ProductsResource, AccessRule(UserRoleId, ProductsResource, UserCaps));
    assert !AnyFlag(user, ProductsResource, CanUpdateAll);
    assert Applies(admin, ProductsResource, AccessRule(AdminRoleId, ProductsResource, AdminCaps));
  }
}
