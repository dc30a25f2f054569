/** The relational store behind the ORM client `db`: three tables keyed by
    id, and the store's id generator. */
module Database {
  import opened Wrappers
  import JsText

  /** A row of `db.configuration`; the option columns may be null. */
  datatype Configuration = Configuration(
    imageUrl: string,
    croppedImageUrl: Option<string>,
    width: int,
    height: int,
    color: Option<string>,
    model: Option<string>,
    material: Option<string>,
    finish: Option<string>)

  /** A row of `db.orderPhoneCase`. */
  datatype OrderPhoneCase = OrderPhoneCase(userId: string, configurationId: string, amount: nat, isFulfilled: bool)

  /** A row of `db.userPhoneCase`. */
  datatype UserPhoneCase = UserPhoneCase(email: string)

  /** The user the authentication service reports for the current session. */
  datatype SessionUser = SessionUser(id: string, email: Option<string>)

  /** The whole store as a value; `nextId` is the state of the id generator. */
  datatype Tables = Tables(
    configuration: map<string, Configuration>,
    orderPhoneCase: map<string, OrderPhoneCase>,
    userPhoneCase: map<string, UserPhoneCase>,
    nextId: nat)

  /** The id the generator hands out at step `n`. */
  function KeyOf(n: nat): string
  {
    JsText.Decimal(n)
  }

  predicate IsOrderFor(o: OrderPhoneCase, userId: string, configId: string)
  {
    o.userId == userId && o.configurationId == configId
  }

  /** No id the generator will still hand out is in use. */
  ghost predicate FreshIds(t: Tables)
  {
    forall n: nat :: n >= t.nextId ==> KeyOf(n) !in t.configuration && KeyOf(n) !in t.orderPhoneCase
  }

  /** At most one order per (user, configuration) pair. */
  ghost predicate OneOrderPerPair(orders: map<string, OrderPhoneCase>)
  {
    forall a, b :: a in orders && b in orders && IsOrderFor(orders[a], orders[b].userId, orders[b].configurationId) ==> a == b
  }

  /** Every order refers to a stored configuration. */
  ghost predicate OrdersReferToConfigurations(t: Tables)
  {
    forall id :: id in t.orderPhoneCase ==> t.orderPhoneCase[id].configurationId in t.configuration
  }

  ghost predicate Valid(t: Tables)
  {
    FreshIds(t) && OneOrderPerPair(t.orderPhoneCase) && OrdersReferToConfigurations(t)
  }

  /** The next id is unused, and handing it out keeps every later id unused. */
  lemma NextIdIsFresh(t: Tables)
    requires FreshIds(t)
    ensures KeyOf(t.nextId) !in t.configuration && KeyOf(t.nextId) !in t.orderPhoneCase
    ensures forall n: nat :: n > t.nextId ==> KeyOf(n) != KeyOf(t.nextId)
  {
    forall n: nat | n > t.nextId
      ensures KeyOf(n) != KeyOf(t.nextId)
    {
      if KeyOf(n) == KeyOf(t.nextId) {
        JsText.DecimalInjective(n, t.nextId);
      }
    }
  }

  /** After an insertion under the next id and a step of the generator, the
      ids still to come are unused. */
  lemma FreshAfterInsert(t: Tables, t': Tables)
    requires FreshIds(t)
    requires t'.nextId == t.nextId + 1
    requires t'.configuration.Keys <= t.configuration.Keys + {KeyOf(t.nextId)}
    requires t'.orderPhoneCase.Keys <= t.orderPhoneCase.Keys + {KeyOf(t.nextId)}
    ensures FreshIds(t')
  {
    NextIdIsFresh(t);
  }

  /** `findFirst` on the orders with a user id and a configuration id. */
  ghost function FindOrder(orders: map<string, OrderPhoneCase>, userId: string, configId: string): (r: Option<string>)
    ensures r.Some? ==> r.value in orders && IsOrderFor(orders[r.value], userId, configId)
    ensures r.None? ==> forall id :: id in orders ==> !IsOrderFor(orders[id], userId, configId)
  {
    if exists id :: id in orders && IsOrderFor(orders[id], userId, configId) then
      var id :| id in orders && IsOrderFor(orders[id], userId, configId);
      Some(id)
    else
      None
  }

  /** Under one order per pair, the order found is the only one there is. */
  lemma FindOrderUnique(orders: map<string, OrderPhoneCase>, userId: string, configId: string, id: string)
    requires OneOrderPerPair(orders)
    requires id in orders && IsOrderFor(orders[id], userId, configId)
    ensures FindOrder(orders, userId, configId) == Some(id)
  {
  }

  /** The ORM client. Each field is one table; the source's operations read
      and write them through the methods below. */
  class Db {
    var configuration: map<string, Configuration>
    var orderPhoneCase: map<string, OrderPhoneCase>
    var userPhoneCase: map<string, UserPhoneCase>
    var nextId: nat

    function State(): Tables
      reads this
    {
      Tables(configuration, orderPhoneCase, userPhoneCase, nextId)
    }

    constructor ()
      ensures State() == Tables(map[], map[], map[], 0) && Valid(State())
    {
      configuration, orderPhoneCase, userPhoneCase, nextId := map[], map[], map[], 0;
    }

    /** `db.configuration.create`: stores the row under a fresh id. */
    method CreateConfiguration(c: Configuration) returns (id: string)
      modifies this
      ensures id == KeyOf(old(nextId)) && nextId == old(nextId) + 1
      ensures configuration == old(configuration)[id := c]
      ensures orderPhoneCase == old(orderPhoneCase) && userPhoneCase == old(userPhoneCase)
    {
      id := KeyOf(nextId);
      nextId := nextId + 1;
      configuration := configuration[id := c];
    }

    /** `db.configuration.update` of the cropped image URL; the ORM throws
        when no row has the id. */
    method UpdateCroppedImageUrl(id: string, url: string) returns (found: bool)
      modifies this
      ensures found == (id in old(configuration))
      ensures configuration == if found then old(configuration)[id := old(configuration)[id].(croppedImageUrl := Some(url))] else old(configuration)
      ensures orderPhoneCase == old(orderPhoneCase) && userPhoneCase == old(userPhoneCase) && nextId == old(nextId)
    {
      found := id in configuration;
      if found {
        configuration := configuration[id := configuration[id].(croppedImageUrl := Some(url))];
      }
    }

    /** `db.orderPhoneCase.findFirst` by user id and configuration id. */
    method FindFirstOrder(userId: string, configId: string) returns (r: Option<string>)
      requires OneOrderPerPair(orderPhoneCase)
      ensures r == FindOrder(orderPhoneCase, userId, configId)
    {
      if exists id :: id in orderPhoneCase && IsOrderFor(orderPhoneCase[id], userId, configId) {
        var id :| id in orderPhoneCase && IsOrderFor(orderPhoneCase[id], userId, configId);
        FindOrderUnique(orderPhoneCase, userId, configId, id);
        r := Some(id);
      } else {
        r := None;
      }
    }

    /** `db.orderPhoneCase.create`: stores the row under a fresh id. */
    method CreateOrder(o: OrderPhoneCase) returns (id: string)
      modifies this
      ensures id == KeyOf(old(nextId)) && nextId == old(nextId) + 1
      ensures orderPhoneCase == old(orderPhoneCase)[id := o]
      ensures configuration == old(configuration) && userPhoneCase == old(userPhoneCase)
    {
      id := KeyOf(nextId);
      nextId := nextId + 1;
      orderPhoneCase := orderPhoneCase[id := o];
    }

    /** `db.userPhoneCase.create` with the id the caller supplies. */
    method CreateUser(id: string, u: UserPhoneCase)
      modifies this
      ensures userPhoneCase == old(userPhoneCase)[id := u]
      ensures configuration == old(configuration) && orderPhoneCase == old(orderPhoneCase) && nextId == old(nextId)
    {
      userPhoneCase := userPhoneCase[id := u];
    }
  }
}
