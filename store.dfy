/**
 * The database the handlers share: one sequence of rows per table, in
 * primary-key order, and the next free primary key. A handler either
 * commits all of its writes or leaves every table as it was.
 */
module Store {
  import opened Wrappers
  import opened OrderModel
  import opened Records
  import Users
  import Tables

  class Database {
    var orders: seq<Order>
    var users: seq<Users.User>
    var roles: seq<string>              // the names in the roles table
    var userRoles: seq<Users.UserRole>
    var products: seq<Product>
    var boxes: seq<nat>                 // the ids in the boxes table
    var qcRibbons: seq<QcRecord>
    var qcOnlines: seq<QcRecord>
    var outbounds: seq<Outbound>
    var expeditions: seq<Expedition>
    var complaints: seq<Complaint>
    var returnRecords: seq<Return>
    var pickedOrders: seq<PickedOrder>
    var nextId: nat

    /** The constraints the orders and users tables enforce, and freshness of the next key. */
    ghost predicate Valid()
      reads this
    {
      OrdersValid(orders, nextId) && UsersValid(users, nextId)
    }

    /** A database after the migration: the seeded roles and nothing else. */
    constructor (seeded: seq<string>)
      ensures Valid()
      ensures orders == [] && users == [] && roles == seeded && userRoles == [] && products == []
      ensures boxes == [] && qcRibbons == [] && qcOnlines == [] && outbounds == [] && expeditions == []
      ensures complaints == [] && returnRecords == [] && pickedOrders == [] && nextId == 1
    {
      orders, users, roles, userRoles, products := [], [], seeded, [], [];
      boxes, qcRibbons, qcOnlines, outbounds, expeditions := [], [], [], [], [];
      complaints, returnRecords, pickedOrders, nextId := [], [], [], 1;
    }
  }

  /**
   * The users table: ids below `next` and distinct, and usernames and emails
   * unique over every row, soft-deleted ones included.
   */
  predicate UsersValid(users: seq<Users.User>, next: nat) {
    (forall i :: 0 <= i < |users| ==> users[i].id < next)
    && forall i, j :: 0 <= i < j < |users| ==>
         users[i].id != users[j].id && users[i].username != users[j].username && users[i].email != users[j].email
  }

  /** Raising the next key keeps the users table valid. */
  lemma UsersValidAbove(users: seq<Users.User>, next: nat, next': nat)
    requires UsersValid(users, next) && next <= next'
    ensures UsersValid(users, next')
  {}

  /** Raising the next key keeps the orders table valid. */
  lemma OrdersValidAbove(orders: seq<Order>, next: nat, next': nat)
    requires OrdersValid(orders, next) && next <= next'
    ensures OrdersValid(orders, next')
  {}

  /** `First(&order, id)`. */
  function OrderById(orders: seq<Order>, id: nat): Option<nat> {
    Tables.Find(orders, (o: Order) => o.id == id)
  }

  /** `Where("tracking = ?", t).First(&order)`. */
  function OrderByTracking(orders: seq<Order>, t: string): Option<nat> {
    Tables.Find(orders, (o: Order) => o.tracking == t)
  }

  /** `Where("order_ginee_id = ?", g).First(&order)`. */
  function OrderByGineeId(orders: seq<Order>, g: string): Option<nat> {
    Tables.Find(orders, (o: Order) => o.gineeId == g)
  }

  /** `First(&user, id)`: soft-deleted users are not found. */
  function UserById(users: seq<Users.User>, id: nat): Option<nat> {
    Tables.Find(users, (u: Users.User) => u.id == id && !u.deleted)
  }

  function QcByTracking(rows: seq<QcRecord>, t: string): Option<nat> {
    Tables.Find(rows, (q: QcRecord) => q.tracking == t)
  }

  function OutboundByTracking(rows: seq<Outbound>, t: string): Option<nat> {
    Tables.Find(rows, (b: Outbound) => b.tracking == t)
  }

  /** `Where("sku = ?", sku).First(&product)`. */
  function ProductBySku(products: seq<Product>, sku: string): Option<nat> {
    Tables.Find(products, (p: Product) => p.sku == sku)
  }

  /** Replacing an order by one with the same keys and ids keeps the orders table valid. */
  lemma ReplaceKeepsValid(orders: seq<Order>, next: nat, k: nat, o: Order)
    requires OrdersValid(orders, next) && k < |orders|
    requires o.id == orders[k].id && o.gineeId == orders[k].gineeId && o.tracking == orders[k].tracking
    requires o.details == orders[k].details
    ensures OrdersValid(orders[k := o], next)
  {}
}
