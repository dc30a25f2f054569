/** The checkout server action: price the stored configuration, find or
    create the order for the signed-in user, and hand the amount to the
    payment service. */
module Checkout {
  import opened Wrappers
  import opened Products
  import opened Database

  datatype CheckoutError = NoSuchConfiguration | NotLoggedIn

  /** What the action passes on to the payment service: the order it
      settles, the product image and the unit amount in cents. */
  datatype PaymentRequest = PaymentRequest(
    orderId: string,
    userId: string,
    configurationId: string,
    imageUrl: string,
    unitAmount: nat)

  /** The closed two-surcharge price rule, in cents. */
  function CheckoutPrice(finish: Option<string>, material: Option<string>): (price: nat)
    ensures BASE_PRICE <= price <= MAX_PRICE
    ensures price % 100 == 0
    ensures price == MAX_PRICE <==> finish == Some("textured") && material == Some("polycarbonate")
  {
    BASE_PRICE
    + (if finish == Some("textured") then PRODUCT_PRICES.finish["textured"] else 0)
    + (if material == Some("polycarbonate") then PRODUCT_PRICES.material["polycarbonate"] else 0)
  }

  /** The effect of one call: the new tables and the result. */
  ghost function Checkout(t: Tables, configId: string, user: Option<SessionUser>): (r: (Tables, Result<PaymentRequest, CheckoutError>))
    // fails exactly when the configuration or the user is missing, in that order, and then changes nothing
    ensures r.1 == Err(NoSuchConfiguration) <==> configId !in t.configuration
    ensures r.1 == Err(NotLoggedIn) <==> configId in t.configuration && user.None?
    ensures r.1.Err? ==> r.0 == t
    // the configurations and users are never written
    ensures r.0.configuration == t.configuration && r.0.userPhoneCase == t.userPhoneCase
    // on success: the amount charged is the configuration's price, and the order is the user's for it
    ensures r.1.Ok? ==>
      var req := r.1.value;
      && user.Some? && req.userId == user.value.id && req.configurationId == configId
      && req.imageUrl == t.configuration[configId].imageUrl
      && req.unitAmount == CheckoutPrice(t.configuration[configId].finish, t.configuration[configId].material)
      && req.orderId in r.0.orderPhoneCase
      && IsOrderFor(r.0.orderPhoneCase[req.orderId], req.userId, configId)
  {
    if configId !in t.configuration then (t, Err(NoSuchConfiguration))
    else if user.None? then (t, Err(NotLoggedIn))
    else
      var configuration := t.configuration[configId];
      var price := CheckoutPrice(configuration.finish, configuration.material);
      var userId := user.value.id;
      match FindOrder(t.orderPhoneCase, userId, configId)
      case Some(orderId) =>
        (t, Ok(PaymentRequest(orderId, userId, configId, configuration.imageUrl, price)))
      case None =>
        var orderId := KeyOf(t.nextId);
        var t' := t.(orderPhoneCase := t.orderPhoneCase[orderId := OrderPhoneCase(userId, configId, price / 100, false)],
                     nextId := t.nextId + 1);
        (t', Ok(PaymentRequest(orderId, userId, configId, configuration.imageUrl, price)))
  }

  /** `createCheckoutSession` up to the payment-service calls. */
  method CreateCheckoutSession(db: Db, configId: string, user: Option<SessionUser>)
    returns (r: Result<PaymentRequest, CheckoutError>)
    requires Valid(db.State())
    modifies db
    ensures Valid(db.State())
    ensures (db.State(), r) == Checkout(old(db.State()), configId, user)
  {
    if configId !in db.configuration {
      return Err(NoSuchConfiguration);
    }
    var configuration := db.configuration[configId];
    if user.None? {
      return Err(NotLoggedIn);
    }
    var userId := user.value.id;
    var price := BASE_PRICE;
    if configuration.finish == Some("textured") {
      price := price + PRODUCT_PRICES.finish["textured"];
    }
    if configuration.material == Some("polycarbonate") {
      price := price + PRODUCT_PRICES.material["polycarbonate"];
    }
    ghost var before := db.State();
    var existingOrder := db.FindFirstOrder(userId, configId);
    var orderId: string;
    if existingOrder.Some? {
      orderId := existingOrder.value;
    } else {
      orderId := db.CreateOrder(OrderPhoneCase(userId, configId, price / 100, false));
      CheckoutKeepsValid(before, configId, user);
    }
    r := Ok(PaymentRequest(orderId, userId, configId, configuration.imageUrl, price));
  }

  /** Checkout keeps the store's invariant; in particular it never adds a
      second order for a (user, configuration) pair. */
  lemma CheckoutKeepsValid(t: Tables, configId: string, user: Option<SessionUser>)
    requires Valid(t)
    ensures Valid(Checkout(t, configId, user).0)
  {
    var t' := Checkout(t, configId, user).0;
    if configId in t.configuration && user.Some? && FindOrder(t.orderPhoneCase, user.value.id, configId).None? {
      NextIdIsFresh(t);
      FreshAfterInsert(t, t');
      var orderId := KeyOf(t.nextId);
      forall a, b | a in t'.orderPhoneCase && b in t'.orderPhoneCase
          && IsOrderFor(t'.orderPhoneCase[a], t'.orderPhoneCase[b].userId, t'.orderPhoneCase[b].configurationId)
        ensures a == b
      {
        if a != orderId && b != orderId {
          assert t'.orderPhoneCase[a] == t.orderPhoneCase[a] && t'.orderPhoneCase[b] == t.orderPhoneCase[b];
        }
      }
    }
  }

  /** An existing order is reused: the tables are left as they are. */
  lemma ExistingOrderReused(t: Tables, configId: string, user: SessionUser, orderId: string)
    requires Valid(t) && configId in t.configuration
    requires orderId in t.orderPhoneCase && IsOrderFor(t.orderPhoneCase[orderId], user.id, configId)
    ensures Checkout(t, configId, Some(user)).0 == t
    ensures Checkout(t, configId, Some(user)).1.Ok? && Checkout(t, configId, Some(user)).1.value.orderId == orderId
  {
    FindOrderUnique(t.orderPhoneCase, user.id, configId, orderId);
  }

  /** Without an order for the pair, exactly one order is added, under a
      fresh id, carrying the price in whole units of currency. */
  lemma NewOrderAdded(t: Tables, configId: string, user: SessionUser)
    requires Valid(t) && configId in t.configuration
    requires forall id :: id in t.orderPhoneCase ==> !IsOrderFor(t.orderPhoneCase[id], user.id, configId)
    ensures var (t', r) := Checkout(t, configId, Some(user));
      && r.Ok? && r.value.orderId !in t.orderPhoneCase
      && t'.orderPhoneCase == t.orderPhoneCase[r.value.orderId := t'.orderPhoneCase[r.value.orderId]]
      && |t'.orderPhoneCase| == |t.orderPhoneCase| + 1
      && var o := t'.orderPhoneCase[r.value.orderId];
         o.userId == user.id && o.configurationId == configId && !o.isFulfilled
         && o.amount * 100 == r.value.unitAmount
  {
    NextIdIsFresh(t);
  }

  /** Checking out twice for the same user and configuration gives the same
      order and changes nothing the second time. */
  lemma CheckoutIdempotent(t: Tables, configId: string, user: Option<SessionUser>)
    requires Valid(t)
    ensures var (t1, r1) := Checkout(t, configId, user);
      Checkout(t1, configId, user) == (t1, r1)
  {
    var (t1, r1) := Checkout(t, configId, user);
    if r1.Ok? {
      CheckoutKeepsValid(t, configId, user);
      FindOrderUnique(t1.orderPhoneCase, user.value.id, configId, r1.value.orderId);
    }
  }
}
