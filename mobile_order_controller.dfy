/**
 * The handlers of the pickers' mobile app (controllers/mobile_order_controller.go):
 * a picker takes an order, completes it (leaving a receipt), and a
 * coordinator, by typing their credentials on the picker's device, parks
 * an order back to "pending picking".
 */
module MobileOrderController {
  import opened Wrappers
  import opened OrderModel
  import opened Records
  import opened Store
  import Users
  import Tables
  import OrderController

  /** The statuses from which a picker may take an order. */
  predicate Pickable(o: Order) {
    o.processingStatus == ReadyToPick || o.processingStatus == PendingPicking
  }

  /**
   * The pick lookup as written: the condition `processing_status IN = ?` is
   * not valid SQL, so the database refuses the query whatever the order.
   */
  function PickLookupAsWritten(orders: seq<Order>, id: nat): (r: Result<nat>)
    ensures r.Err? && r.error.Internal?
  {
    Err(Internal("failed to find order"))
  }

  /** As written, no order can ever be taken from the app. */
  lemma PickingAsWrittenNeverSucceeds(orders: seq<Order>, id: nat)
    requires exists k :: 0 <= k < |orders| && orders[k].id == id && Pickable(orders[k])
    ensures PickLookupAsWritten(orders, id).Err?
  {}

  /** The intended pick lookup: the first order with that id whose status is pickable. */
  function PickLookup(orders: seq<Order>, id: nat): (r: Result<nat>)
    ensures r.Ok? <==> exists k :: 0 <= k < |orders| && orders[k].id == id && Pickable(orders[k])
    ensures r.Ok? ==> r.value < |orders| && orders[r.value].id == id && Pickable(orders[r.value])
    ensures r.Err? ==> r == Err(NotFound("order available for picking"))
  {
    match Tables.Find(orders, (o: Order) => o.id == id && Pickable(o))
    case None => Err(NotFound("order available for picking"))
    case Some(k) => Ok(k)
  }

  /** Taking an order: "picking process" under the actor, whatever its event status. */
  function Take(o: Order, actor: nat, now: int): (t: Order)
    ensures t.processingStatus == PickingProcess && t.pickedBy == Some(actor) && t.pickedAt == Some(now)
    ensures t.(processingStatus := o.processingStatus, pickedBy := o.pickedBy, pickedAt := o.pickedAt) == o
  {
    o.(processingStatus := PickingProcess, pickedBy := Some(actor), pickedAt := Some(now))
  }

  /** The pick does not look at the event status: a cancelled order can still be taken. */
  lemma CancelledOrderCanBeTaken(orders: seq<Order>, k: nat, actor: nat, now: int)
    requires k < |orders| && KeysUnique(orders) && IsCancelled(orders[k]) && orders[k].processingStatus == ReadyToPick
    ensures PickLookup(orders, orders[k].id) == Ok(k)
    ensures IsCancelled(Take(orders[k], actor, now))
  {
    forall j | 0 <= j < |orders| && j != k ensures orders[j].id != orders[k].id {
      assert j < k || k < j;
    }
  }

  /** `PickingOrder`, with the lookup as evidently intended. */
  method PickingOrder(db: Database, id: nat, actor: nat, now: int) returns (r: Result<Order>)
    requires db.Valid()
    modifies db`orders
    ensures db.Valid()
    ensures r.Ok? <==> exists k :: 0 <= k < |old(db.orders)| && old(db.orders)[k].id == id && Pickable(old(db.orders)[k])
    ensures r.Err? ==> r == Err(NotFound("order available for picking")) && db.orders == old(db.orders)
    ensures r.Ok? ==> var k := PickLookup(old(db.orders), id).value;
      r.value == Take(old(db.orders)[k], actor, now) && db.orders == old(db.orders)[k := r.value]
  {
    var found := PickLookup(db.orders, id);
    if found.Err? {
      return Err(found.error);
    }
    var k := found.value;
    r := Ok(Take(db.orders[k], actor, now));
    ReplaceKeepsValid(db.orders, db.nextId, k, r.value);
    db.orders := db.orders[k := r.value];
  }

  /** The completion lookup: the order with that id, in "picking process", picked by the actor. */
  predicate Completable(o: Order, actor: nat) {
    o.processingStatus == PickingProcess && o.pickedBy == Some(actor)
  }

  function CompleteLookup(orders: seq<Order>, id: nat, actor: nat): (r: Result<nat>)
    ensures r.Ok? <==> exists k :: 0 <= k < |orders| && orders[k].id == id && Completable(orders[k], actor)
    ensures r.Ok? ==> r.value < |orders| && orders[r.value].id == id && Completable(orders[r.value], actor)
    ensures r.Err? ==> r == Err(NotFound("order in picking process"))
  {
    match Tables.Find(orders, (o: Order) => o.id == id && Completable(o, actor))
    case None => Err(NotFound("order in picking process"))
    case Some(k) => Ok(k)
  }

  /**
   * `CompletePickingOrder`: one receipt (order, picker) and the status
   * "picking complete", written in one transaction.
   */
  method CompletePickingOrder(db: Database, id: nat, actor: nat) returns (r: Result<Order>)
    requires db.Valid()
    modifies db`orders, db`pickedOrders
    ensures db.Valid()
    ensures r.Ok? <==> exists k :: 0 <= k < |old(db.orders)| && old(db.orders)[k].id == id && Completable(old(db.orders)[k], actor)
    ensures r.Err? ==> r == Err(NotFound("order in picking process"))
                       && db.orders == old(db.orders) && db.pickedOrders == old(db.pickedOrders)
    ensures r.Ok? ==> var k := CompleteLookup(old(db.orders), id, actor).value;
      r.value == old(db.orders)[k].(processingStatus := PickingComplete)
      && db.orders == old(db.orders)[k := r.value]
      && db.pickedOrders == old(db.pickedOrders) + [PickedOrder(id, actor)]
  {
    var found := CompleteLookup(db.orders, id, actor);
    if found.Err? {
      return Err(found.error);
    }
    var k := found.value;
    r := Ok(db.orders[k].(processingStatus := PickingComplete));
    ReplaceKeepsValid(db.orders, db.nextId, k, r.value);
    db.pickedOrders := db.pickedOrders + [PickedOrder(id, actor)];
    db.orders := db.orders[k := r.value];
  }

  /** Once completed, the order no longer matches the completion lookup: a second completion finds nothing. */
  lemma CompletionIsOnce(orders: seq<Order>, k: nat, actor: nat, anyone: nat)
    requires KeysUnique(orders) && k < |orders| && Completable(orders[k], actor)
    ensures var after := orders[k := orders[k].(processingStatus := PickingComplete)];
      CompleteLookup(after, orders[k].id, anyone).Err? && PickLookup(after, orders[k].id).Err?
  {
    var after := orders[k := orders[k].(processingStatus := PickingComplete)];
    forall j | 0 <= j < |after| && j != k ensures after[j].id != orders[k].id {
      assert after[j] == orders[j];
      assert j < k || k < j;
    }
  }

  /** The coordinator credentials typed on the device. */
  datatype Credentials = Credentials(username: string, password: string)

  /** `Where("username = ?", u).First(&user)`: soft-deleted users are not found. */
  function UserByName(users: seq<Users.User>, name: string): Option<nat> {
    Tables.Find(users, (u: Users.User) => u.username == name && !u.deleted)
  }

  /** The role names that let a user park an order from the device. */
  predicate ParkingRole(name: string) {
    name == "coordinator" || name == "superadmin"
  }

  /** The handler's walk over the coordinator's roles, stopping at the first that qualifies. */
  method HoldsParkingRole(held: seq<Users.UserRole>) returns (found: bool)
    ensures found <==> exists i :: 0 <= i < |held| && ParkingRole(held[i].roleName)
  {
    found := false;
    var i := 0;
    while i < |held|
      invariant 0 <= i <= |held|
      invariant !found && forall j :: 0 <= j < i ==> !ParkingRole(held[j].roleName)
    {
      if ParkingRole(held[i].roleName) {
        found := true;
        break;
      }
      i := i + 1;
    }
  }

  /** Whether user `uid` holds a role that lets them park orders from the device. */
  predicate MayPark(userRoles: seq<Users.UserRole>, uid: nat) {
    exists i :: 0 <= i < |Users.HeldBy(userRoles, uid)| && ParkingRole(Users.HeldBy(userRoles, uid)[i].roleName)
  }

  /** The request binding: both fields are `required`, so an empty username or password is refused before any lookup. */
  predicate CredentialsBound(c: Credentials) {
    c.username != "" && c.password != ""
  }

  /**
   * Whether the credentials authorise parking: both fields present, a known
   * user, the right password, a coordinator or superadmin role.
   */
  function Authorise(users: seq<Users.User>, userRoles: seq<Users.UserRole>, c: Credentials,
                     passwordMatches: (string, string) -> bool): (r: Result<nat>)
    ensures !CredentialsBound(c) ==> r == Err(BadRequest("validation failed"))
    ensures CredentialsBound(c) && UserByName(users, c.username).None? ==> r == Err(Unauthorized("coordinator user not found"))
    ensures r.Ok? <==> CredentialsBound(c) && UserByName(users, c.username).Some?
                       && passwordMatches(c.password, users[UserByName(users, c.username).value].password)
                       && MayPark(userRoles, users[UserByName(users, c.username).value].id)
    ensures r.Ok? ==> r.value == users[UserByName(users, c.username).value].id
    ensures r.Err? ==> r.error == BadRequest("validation failed") || r.error.Unauthorized?
                       || r.error == Forbidden("user does not have coordinator role")
  {
    if !CredentialsBound(c) then Err(BadRequest("validation failed"))
    else match UserByName(users, c.username)
    case None => Err(Unauthorized("coordinator user not found"))
    case Some(k) =>
      if !passwordMatches(c.password, users[k].password) then Err(Unauthorized("incorrect password"))
      else
        if MayPark(userRoles, users[k].id) then Ok(users[k].id)
        else Err(Forbidden("user does not have coordinator role"))
  }

  /**
   * Mobile `PendingPickOrders` (route without a role gate): the credentials
   * are bound and checked first; the order is then parked under the device's user, not
   * under the coordinator who typed the credentials.
   */
  method PendingPickOrders(db: Database, id: nat, c: Credentials, passwordMatches: (string, string) -> bool,
                           actor: nat, now: int) returns (r: Result<Order>)
    requires db.Valid()
    modifies db`orders
    ensures db.Valid()
    ensures Authorise(db.users, db.userRoles, c, passwordMatches).Err? ==>
              r == Err(Authorise(db.users, db.userRoles, c, passwordMatches).error) && db.orders == old(db.orders)
    ensures Authorise(db.users, db.userRoles, c, passwordMatches).Ok? && OrderById(old(db.orders), id).None? ==>
              r == Err(NotFound("order")) && db.orders == old(db.orders)
    ensures Authorise(db.users, db.userRoles, c, passwordMatches).Ok? && OrderById(old(db.orders), id).Some? ==>
              var k := OrderById(old(db.orders), id).value;
              r == OrderController.Park(old(db.orders)[k], actor, now)
              && db.orders == OrderController.Committed(old(db.orders), k, r)
  {
    if c.username == "" || c.password == "" {
      return Err(BadRequest("validation failed"));
    }
    var who := UserByName(db.users, c.username);
    if who.None? {
      return Err(Unauthorized("coordinator user not found"));
    }
    var coordinator := db.users[who.value];
    if !passwordMatches(c.password, coordinator.password) {
      return Err(Unauthorized("incorrect password"));
    }
    var qualifies := HoldsParkingRole(Users.HeldBy(db.userRoles, coordinator.id));
    if !qualifies {
      return Err(Forbidden("user does not have coordinator role"));
    }
    var found := OrderById(db.orders, id);
    if found.None? {
      return Err(NotFound("order"));
    }
    var k := found.value;
    r := OrderController.Park(db.orders[k], actor, now);
    OrderController.CommitKeepsValid(db.orders, db.nextId, k, r);
    db.orders := OrderController.Committed(db.orders, k, r);
  }
}
