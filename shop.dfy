/**
 * The storefront's persistent state and its request handlers. The three
 * collections (users, products, orders) are fields of one Store object;
 * each handler reads, transforms with the Carts functions, and writes back
 * in one atomic step. The session is an explicit optional user id.
 */
module Shop {
  import opened Wrappers
  import opened Catalog
  import opened Carts

  /** A user's position in the users collection. */
  type UserId = nat

  datatype User = User(name: string, email: string, passwordHash: string, cart: Cart)

  /** An order: who placed it, the delivery details, the raw cart lines and the total at confirmation. */
  datatype Order = Order(userId: UserId, recipient: string, address: string, paymentMethod: string,
                         lines: Cart, total: int)

  datatype Registration = Registered(id: UserId) | DuplicateEmail

  datatype Confirmation = LoginRequired | CartEmpty | Confirmed(order: Order)

  /** Some user already has this email. */
  predicate EmailTaken(users: seq<User>, email: string)
  {
    exists u :: 0 <= u < |users| && users[u].email == email
  }

  /** The first user with the given email, as a lookup on the email field finds it. */
  function FindEmail(users: seq<User>, email: string): (r: Option<UserId>)
    ensures r.None? <==> !EmailTaken(users, email)
    ensures r.Some? ==> r.value < |users| && users[r.value].email == email
    ensures r.Some? ==> forall u :: 0 <= u < r.value ==> users[u].email != email
  {
    if users == [] then None
    else if users[0].email == email then Some(0)
    else
      assert forall u :: 1 <= u < |users| ==> users[u] == users[1..][u - 1];
      match FindEmail(users[1..], email)
      case None => None
      case Some(u) => Some(u + 1)
  }

  ghost predicate UniqueEmails(users: seq<User>)
  {
    forall u, v :: 0 <= u < v < |users| ==> users[u].email != users[v].email
  }

  class Store {
    var users: seq<User>
    var orders: seq<Order>
    const catalog: seq<Product>

    /**
     * The store invariant: emails are unique, every cart has at most one
     * line per product, and every order belongs to an existing user.
     */
    ghost predicate Valid()
      reads this
    {
      UniqueEmails(users) &&
      (forall u :: 0 <= u < |users| ==> UniqueIds(users[u].cart)) &&
      (forall k :: 0 <= k < |orders| ==> orders[k].userId < |users|)
    }

    /** The session names an existing user. */
    predicate SignedIn(session: Option<UserId>)
      reads this
    {
      session.Some? && session.value < |users|
    }

    constructor (catalog: seq<Product>)
      ensures Valid()
      ensures this.catalog == catalog && users == [] && orders == []
    {
      this.catalog := catalog;
      users := [];
      orders := [];
    }

    /**
     * Registration: refused when the email is taken, otherwise one user is
     * appended with that email and an empty cart. The password arrives
     * already hashed.
     */
    method Register(name: string, email: string, passwordHash: string) returns (r: Registration)
      requires Valid()
      modifies this
      ensures Valid() && orders == old(orders)
      ensures r == DuplicateEmail <==> EmailTaken(old(users), email)
      ensures r == DuplicateEmail ==> users == old(users)
      ensures r != DuplicateEmail ==>
        r == Registered(|old(users)|) && users == old(users) + [User(name, email, passwordHash, [])]
    {
      var found := FindEmail(users, email);
      if found.Some? {
        return DuplicateEmail;
      }
      r := Registered(|users|);
      users := users + [User(name, email, passwordHash, [])];
    }

    /**
     * Login: finds the user with this email and checks the password against
     * the stored hash with verify; on success the session is that user's id.
     */
    method Login(email: string, password: string, verify: (string, string) -> bool)
      returns (session: Option<UserId>)
      requires Valid()
      ensures session.Some? <==>
        exists u :: 0 <= u < |users| && users[u].email == email && verify(users[u].passwordHash, password)
      ensures session.Some? ==>
        SignedIn(session) && users[session.value].email == email
    {
      var found := FindEmail(users, email);
      if found.Some? && verify(users[found.value].passwordHash, password) {
        session := found;
      } else {
        session := None;
      }
    }

    /** Add-to-cart: merges q of p into the signed-in user's cart; signed out, nothing changes. */
    method AddToCart(session: Option<UserId>, p: ProductId, q: int) returns (signedIn: bool)
      requires Valid()
      modifies this
      ensures Valid() && orders == old(orders)
      ensures signedIn == old(SignedIn(session))
      ensures signedIn ==> users == old(users)[session.value :=
        old(users)[session.value].(cart := Added(old(users)[session.value].cart, p, q))]
      ensures !signedIn ==> users == old(users)
    {
      signedIn := SignedIn(session);
      if signedIn {
        var u := session.value;
        var cart := AddLine(users[u].cart, p, q);
        AddedUnique(users[u].cart, p, q);
        users := users[u := users[u].(cart := cart)];
      }
    }

    /** Update: sets p's quantity to n verbatim in the signed-in user's cart. */
    method UpdateCart(session: Option<UserId>, p: ProductId, n: int) returns (signedIn: bool)
      requires Valid()
      modifies this
      ensures Valid() && orders == old(orders)
      ensures signedIn == old(SignedIn(session))
      ensures signedIn ==> users == old(users)[session.value :=
        old(users)[session.value].(cart := Updated(old(users)[session.value].cart, p, n))]
      ensures !signedIn ==> users == old(users)
    {
      signedIn := SignedIn(session);
      if signedIn {
        var u := session.value;
        var cart := SetQuantity(users[u].cart, p, n);
        UpdatedUnique(users[u].cart, p, n);
        users := users[u := users[u].(cart := cart)];
      }
    }

    /** Remove: drops every line for p from the signed-in user's cart. */
    method RemoveFromCart(session: Option<UserId>, p: ProductId) returns (signedIn: bool)
      requires Valid()
      modifies this
      ensures Valid() && orders == old(orders)
      ensures signedIn == old(SignedIn(session))
      ensures signedIn ==> users == old(users)[session.value :=
        old(users)[session.value].(cart := Removed(old(users)[session.value].cart, p))]
      ensures !signedIn ==> users == old(users)
    {
      signedIn := SignedIn(session);
      if signedIn {
        var u := session.value;
        RemovedUnique(users[u].cart, p);
        users := users[u := users[u].(cart := Removed(users[u].cart, p))];
      }
    }

    /** The cart page: the resolved lines and the total; None when signed out. */
    method ViewCart(session: Option<UserId>) returns (r: Option<Summary>)
      ensures r.Some? <==> SignedIn(session)
      ensures r.Some? ==> r.value.items == View(users[session.value].cart, catalog)
      ensures r.Some? ==> r.value.total == Total(users[session.value].cart, catalog)
    {
      if !SignedIn(session) {
        return None;
      }
      var s := Summarize(users[session.value].cart, catalog);
      r := Some(s);
    }

    /** The checkout page: the same priced view as the cart page. */
    method Checkout(session: Option<UserId>) returns (r: Option<Summary>)
      ensures r.Some? <==> SignedIn(session)
      ensures r.Some? ==> r.value.items == View(users[session.value].cart, catalog)
      ensures r.Some? ==> r.value.total == Total(users[session.value].cart, catalog)
    {
      r := ViewCart(session);
    }

    /**
     * Order confirmation: nothing happens on an empty cart; otherwise exactly
     * one order is appended, holding the raw cart lines and the cart total,
     * and then the user's cart is emptied.
     */
    method ConfirmOrder(session: Option<UserId>, recipient: string, address: string, paymentMethod: string)
      returns (r: Confirmation)
      requires Valid()
      modifies this
      ensures Valid()
      ensures !old(SignedIn(session)) ==> r == LoginRequired && users == old(users) && orders == old(orders)
      ensures old(SignedIn(session)) && old(users)[session.value].cart == [] ==>
        r == CartEmpty && users == old(users) && orders == old(orders)
      ensures old(SignedIn(session)) && old(users)[session.value].cart != [] ==>
        var u := session.value;
        var lines := old(users)[u].cart;
        r == Confirmed(Order(u, recipient, address, paymentMethod, lines, Total(lines, catalog))) &&
        orders == old(orders) + [r.order] &&
        users == old(users)[u := old(users)[u].(cart := [])]
    {
      if !SignedIn(session) {
        return LoginRequired;
      }
      var u := session.value;
      var lines := users[u].cart;
      if lines == [] {
        return CartEmpty;
      }
      var total := OrderTotal(lines, catalog);
      var order := Order(u, recipient, address, paymentMethod, lines, total);
      orders := orders + [order];
      users := users[u := users[u].(cart := [])];
      r := Confirmed(order);
    }
  }

  /**
   * A new account can log in; two adds of 2 and 3 leave one line of 5; confirming
   * records one order of the priced total and empties the cart.
   */
  method AddTwiceThenConfirm()
  {
    var creatine := Product("p1", "Creatina", 1000, "300 g");
    var store := new Store([creatine]);
    var reg := store.Register("Ana", "ana@example.com", "hash");
    assert reg == Registered(0);
    var verify := (h: string, pw: string) => h == "hash" && pw == "secret";
    assert store.users[0].email == "ana@example.com" && verify(store.users[0].passwordHash, "secret");
    var session := store.Login("ana@example.com", "secret", verify);
    assert session == Some(0);
    var ok := store.AddToCart(session, "p1", 2);
    ok := store.AddToCart(session, "p1", 3);
    assert store.users[0].cart == [Line("p1", 2)][0 := Line("p1", 5)];
    var view := store.ViewCart(session);
    assert view.value.total == 5000;
    var confirmation := store.ConfirmOrder(session, "Ana", "Calle 1", "tarjeta");
    assert store.users[0].cart == [];
    assert |store.orders| == 1 && store.orders[0].total == 5000;
  }
}
