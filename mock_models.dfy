/**
 * The sample business objects of src/backend/mock_business/models.py: `MockProduct`,
 * `MockOrder`, their `to_dict`, and the two module-level dictionaries `products_db` and
 * `orders_db`, which map an object's id to the object and keep insertion order.
 */
module MockModels {
  import opened Wrappers
  import opened Permissions

  /** A `datetime`, taken from the caller. */
  type Timestamp = nat

  /** The `User` object an object belongs to: its primary key and its email. */
  datatype Account = Account(id: UserId, email: string)

  datatype Product = Product(id: string, name: string, price: real, owner: Account, createdAt: Timestamp)

  /** The status every new order starts in. */
  const Pending := "pending"

  datatype Order = Order(id: string, productId: string, quantity: int, owner: Account, status: string, createdAt: Timestamp)

  /** What `to_dict` returns: the owner is reported by email. */
  datatype ProductDict = ProductDict(id: string, name: string, price: real, owner: string, createdAt: Timestamp)
  datatype OrderDict = OrderDict(id: string, productId: string, quantity: int, status: string, owner: string, createdAt: Timestamp)

  /** The length of a short id. */
  const ShortIdLength := 8

  /** `str(uuid.uuid4())[:8]`: the first eight characters of the UUID string, or all of a shorter one. */
  function ShortId(uuid: string): (id: string)
    ensures |id| <= ShortIdLength
    ensures id <= uuid
    ensures |uuid| >= ShortIdLength ==> |id| == ShortIdLength
  {
    if |uuid| <= ShortIdLength then uuid else uuid[..ShortIdLength]
  }

  /** `MockProduct(name, price, owner)`, with the UUID and the clock given. */
  function NewProduct(uuid: string, name: string, price: real, owner: Account, now: Timestamp): (p: Product)
    ensures |p.id| <= ShortIdLength && p.id <= uuid
    ensures p.name == name && p.price == price && p.owner == owner && p.createdAt == now
  {
    Product(ShortId(uuid), name, price, owner, now)
  }

  /** `MockOrder(product_id, quantity, owner)`: a new order is pending. */
  function NewOrder(uuid: string, productId: string, quantity: int, owner: Account, now: Timestamp): (o: Order)
    ensures |o.id| <= ShortIdLength && o.id <= uuid
    ensures o.productId == productId && o.quantity == quantity && o.owner == owner && o.status == Pending
    ensures o.createdAt == now
  {
    Order(ShortId(uuid), productId, quantity, owner, Pending, now)
  }

  function ProductToDict(p: Product): ProductDict {
    ProductDict(p.id, p.name, p.price, p.owner.email, p.createdAt)
  }

  function OrderToDict(o: Order): OrderDict {
    OrderDict(o.id, o.productId, o.quantity, o.status, o.owner.email, o.createdAt)
  }

  /** The product a dictionary describes, given the primary key of the user with the reported email. */
  function ProductFromDict(d: ProductDict, ownerId: UserId): Product {
    Product(d.id, d.name, d.price, Account(ownerId, d.owner), d.createdAt)
  }

  function OrderFromDict(d: OrderDict, ownerId: UserId): Order {
    Order(d.id, d.productId, d.quantity, Account(ownerId, d.owner), d.status, d.createdAt)
  }

  /** `to_dict` loses nothing but the owner's primary key: it echoes every stored field and the owner's email. */
  lemma ToDictRoundTrip(p: Product, o: Order)
    ensures ProductFromDict(ProductToDict(p), p.owner.id) == p
    ensures OrderFromDict(OrderToDict(o), o.owner.id) == o
    ensures ProductToDict(p).owner == p.owner.email && OrderToDict(o).owner == o.owner.email
  {
  }

  /** How the permission classes see a product or an order: an `owner` attribute holding a User, no `user` attribute. */
  function OwnedTarget(owner: Account): Target {
    Target(Has(UserObj(owner.id)), Missing)
  }

  function ProductOwner(p: Product): Account { p.owner }
  function OrderOwner(o: Order): Account { o.owner }

  // ----- Insertion-ordered dictionaries -----

  /** `ks` lists the keys of `m` once each, in insertion order. */
  ghost predicate Indexed<K(!new), V>(ks: seq<K>, m: map<K, V>) {
    && (forall i, j :: 0 <= i < j < |ks| ==> ks[i] != ks[j])
    && (forall k :: k in m <==> k in ks)
  }

  /** `list(d.values())`: the values of `m` in the order of `ks`. */
  function Values<K(==,!new), V>(ks: seq<K>, m: map<K, V>): (vs: seq<V>)
    requires forall k :: k in ks ==> k in m
    ensures |vs| == |ks|
    ensures forall i :: 0 <= i < |ks| ==> vs[i] == m[ks[i]]
  {
    if ks == [] then [] else Values(ks[..|ks| - 1], m) + [m[ks[|ks| - 1]]]
  }

  /** The key order after `d[k] = v`: a new key goes last, an existing one keeps its place. */
  function PutKey<K(==,!new), V>(ks: seq<K>, m: map<K, V>, k: K): seq<K> {
    if k in m then ks else ks + [k]
  }

  /** The key order after `del d[k]`: every other key keeps its relative place. */
  function RemoveKey<K(==,!new)>(ks: seq<K>, k: K): (r: seq<K>)
    ensures forall x :: x in r <==> x in ks && x != k
    ensures |r| <= |ks|
  {
    if ks == [] then [] else (if ks[0] == k then [] else [ks[0]]) + RemoveKey(ks[1..], k)
  }

  /** Removing a key from a duplicate-free key list leaves a duplicate-free list. */
  lemma {:induction false} RemoveKeyDistinct<K(!new)>(ks: seq<K>, k: K)
    requires forall i, j :: 0 <= i < j < |ks| ==> ks[i] != ks[j]
    ensures forall i, j :: 0 <= i < j < |RemoveKey(ks, k)| ==> RemoveKey(ks, k)[i] != RemoveKey(ks, k)[j]
  {
    if ks != [] {
      RemoveKeyDistinct(ks[1..], k);
      var rest := RemoveKey(ks[1..], k);
      assert ks[0] !in ks[1..];
      assert ks[0] !in rest;
    }
  }

  /** `d[k] = v` keeps the key list in step with the map. */
  lemma PutIndexed<K(!new), V>(ks: seq<K>, m: map<K, V>, k: K, v: V)
    requires Indexed(ks, m)
    ensures Indexed(PutKey(ks, m, k), m[k := v])
  {
  }

  /** `del d[k]` keeps the key list in step with the map. */
  lemma RemoveIndexed<K(!new), V>(ks: seq<K>, m: map<K, V>, k: K)
    requires Indexed(ks, m)
    ensures Indexed(RemoveKey(ks, k), m - {k})
  {
    RemoveKeyDistinct(ks, k);
  }

  /** The two dictionaries; objects are stored as values, keyed by their own id. */
  class MockDb {
    var productKeys: seq<string>
    var products: map<string, Product>
    var orderKeys: seq<string>
    var orders: map<string, Order>

    ghost predicate Valid()
      reads this
    {
      && Indexed(productKeys, products)
      && Indexed(orderKeys, orders)
      && (forall k :: k in products ==> products[k].id == k)
      && (forall k :: k in orders ==> orders[k].id == k)
    }

    /** `products_db = {}` and `orders_db = {}`. */
    constructor ()
      ensures Valid()
      ensures products == map[] && orders == map[] && productKeys == [] && orderKeys == []
    {
      productKeys, products, orderKeys, orders := [], map[], [], map[];
    }

    /** `list(products_db.values())`. */
    function Products(): seq<Product>
      reads this
      requires Valid()
    {
      Values(productKeys, products)
    }

    /** `list(orders_db.values())`. */
    function Orders(): seq<Order>
      reads this
      requires Valid()
    {
      Values(orderKeys, orders)
    }

    /** `products_db[p.id] = p`. */
    method PutProduct(p: Product)
      requires Valid()
      modifies this
      ensures Valid()
      ensures products == old(products)[p.id := p]
      ensures productKeys == PutKey(old(productKeys), old(products), p.id)
      ensures orders == old(orders) && orderKeys == old(orderKeys)
    {
      PutIndexed(productKeys, products, p.id, p);
      productKeys, products := PutKey(productKeys, products, p.id), products[p.id := p];
    }

    /** `del products_db[id]`. */
    method RemoveProduct(id: string)
      requires Valid()
      modifies this
      ensures Valid()
      ensures products == old(products) - {id}
      ensures productKeys == RemoveKey(old(productKeys), id)
      ensures orders == old(orders) && orderKeys == old(orderKeys)
    {
      RemoveIndexed(productKeys, products, id);
      productKeys, products := RemoveKey(productKeys, id), products - {id};
    }

    /** `orders_db[o.id] = o`. */
    method PutOrder(o: Order)
      requires Valid()
      modifies this
      ensures Valid()
      ensures orders == old(orders)[o.id := o]
      ensures orderKeys == PutKey(old(orderKeys), old(orders), o.id)
      ensures products == old(products) && productKeys == old(productKeys)
    {
      PutIndexed(orderKeys, orders, o.id, o);
      orderKeys, orders := PutKey(orderKeys, orders, o.id), orders[o.id := o];
    }
  }
}
