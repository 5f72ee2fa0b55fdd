/**
 * The marketplace database behind the server's route handlers: customers, items,
 * orders, payment rows, one saved card per customer and the wishlist, with one
 * method per handler (signup, listing an item, order creation, payment, wishlist
 * toggle, product delete and edit, card save/update/delete, user status, and the
 * admin's payment-status override).
 *
 * Every handler answers with a `Reply` (HTTP status and message). The payment
 * handler runs as one transaction: a failure after the first write rolls every
 * table back.
 *
 * The central invariant is `SoldConsistent`: an item is marked sold exactly when
 * one `Success` payment exists among its orders. Order creation and payment keep
 * it; the admin override can break it (`OverrideCanBreakSoldInvariant`).
 */
module Marketplace {
  import opened Optional
  import opened Strings
  import opened CardRules

  datatype Role = Customer | Admin
  datatype UserStatus = Active | Inactive

  /** A row of `customers` (the password hash and the picture path are not modelled). */
  datatype Account = Account(
    username: string, email: string, phone: Option<string>, city: Option<string>,
    role: Role, status: UserStatus)

  /** A row of `items`; `sold` is `is_sold = 'Yes'`. */
  datatype Item = Item(
    owner: nat, subcategory: nat, name: string, description: Option<string>,
    price: int, imageUrl: Option<string>, sold: bool)

  /** A row of `order`. */
  datatype Order = Order(product: nat, buyer: nat, seller: nat)

  datatype PaymentStatus = Success | Failed

  /** A row of `paymentdetails`. */
  datatype Payment = Payment(order: nat, card: nat, status: PaymentStatus)

  /** A row of `card`; the customer it belongs to is the key of `Store.cards`. */
  datatype Card = Card(id: nat, number: string, expiry: string, holder: string)

  /** The HTTP status and the `message` of a handler's JSON answer. */
  datatype Reply = Reply(code: nat, message: string)

  /** `x || null` for an optional text field: a missing or empty value is stored as NULL. */
  function OrNull(x: Option<string>): (r: Option<string>)
    ensures r == None <==> x == None || x == Some("")
    ensures r != None ==> r == x
  {
    if x == Some("") then None else x
  }

  // ---- the sold-flag invariant, on table values ----

  /** `p` is a `Success` payment for an order of `item`. */
  predicate SuccessFor(p: Payment, orders: map<nat, Order>, item: nat) {
    p.status == Success && p.order in orders && orders[p.order].product == item
  }

  /** How many `Success` payments there are among the orders of `item`. */
  function SuccessCount(ps: seq<Payment>, orders: map<nat, Order>, item: nat): nat
    decreases |ps|
  {
    if ps == [] then 0
    else SuccessCount(ps[..|ps| - 1], orders, item) + (if SuccessFor(ps[|ps| - 1], orders, item) then 1 else 0)
  }

  /** The payment route's sold-out test: some order of the item has a `Success` payment. */
  predicate HasSuccess(ps: seq<Payment>, orders: map<nat, Order>, item: nat) {
    exists k | 0 <= k < |ps| :: SuccessFor(ps[k], orders, item)
  }

  /** Every item is marked sold exactly when one `Success` payment exists among its orders. */
  predicate SoldConsistent(items: map<nat, Item>, orders: map<nat, Order>, ps: seq<Payment>) {
    forall i | i in items :: items[i].sold <==> SuccessCount(ps, orders, i) == 1
  }

  /** The sold-out test finds a payment exactly when the count is positive. */
  lemma {:induction false} HasSuccessIffCount(ps: seq<Payment>, orders: map<nat, Order>, item: nat)
    ensures HasSuccess(ps, orders, item) <==> SuccessCount(ps, orders, item) > 0
    decreases |ps|
  {
    if ps != [] {
      var init := ps[..|ps| - 1];
      HasSuccessIffCount(init, orders, item);
      if HasSuccess(init, orders, item) {
        var k :| 0 <= k < |init| && SuccessFor(init[k], orders, item);
        assert ps[k] == init[k];
      }
      if HasSuccess(ps, orders, item) && !SuccessFor(ps[|ps| - 1], orders, item) {
        var k :| 0 <= k < |ps| && SuccessFor(ps[k], orders, item);
        assert init[k] == ps[k];
      }
    }
  }

  lemma SuccessCountAppend(ps: seq<Payment>, p: Payment, orders: map<nat, Order>, item: nat)
    ensures SuccessCount(ps + [p], orders, item) ==
            SuccessCount(ps, orders, item) + (if SuccessFor(p, orders, item) then 1 else 0)
  {
    assert (ps + [p])[..|ps|] == ps;
  }

  /** Adding an order that no payment refers to changes no count. */
  lemma {:induction false} SuccessCountNewOrder(ps: seq<Payment>, orders: map<nat, Order>, o: nat, ord: Order, item: nat)
    requires forall k | 0 <= k < |ps| :: ps[k].order != o
    ensures SuccessCount(ps, orders[o := ord], item) == SuccessCount(ps, orders, item)
    decreases |ps|
  {
    if ps != [] {
      SuccessCountNewOrder(ps[..|ps| - 1], orders, o, ord, item);
    }
  }

  /** An item no order refers to has no `Success` payment. */
  lemma {:induction false} SuccessCountNoOrders(ps: seq<Payment>, orders: map<nat, Order>, item: nat)
    requires forall o | o in orders :: orders[o].product != item
    ensures SuccessCount(ps, orders, item) == 0
    decreases |ps|
  {
    if ps != [] {
      SuccessCountNoOrders(ps[..|ps| - 1], orders, item);
    }
  }

  /**
   * A successful payment for an order of an unsold item without a `Success` payment
   * marks that item sold and appends one `Success` row: the invariant is kept.
   */
  lemma PaySuccessKeepsSold(items: map<nat, Item>, orders: map<nat, Order>, ps: seq<Payment>, orderId: nat, cardId: nat)
    requires SoldConsistent(items, orders, ps)
    requires orderId in orders && orders[orderId].product in items
    requires !items[orders[orderId].product].sold
    requires !HasSuccess(ps, orders, orders[orderId].product)
    ensures SoldConsistent(
      items[orders[orderId].product := items[orders[orderId].product].(sold := true)],
      orders, ps + [Payment(orderId, cardId, Success)])
  {
    var item := orders[orderId].product;
    var p := Payment(orderId, cardId, Success);
    var items' := items[item := items[item].(sold := true)];
    forall i | i in items'
      ensures items'[i].sold <==> SuccessCount(ps + [p], orders, i) == 1
    {
      SuccessCountAppend(ps, p, orders, i);
      if i == item {
        HasSuccessIffCount(ps, orders, item);
      }
    }
  }

  /** Under the invariant a sold item has a `Success` payment. */
  lemma SoldMeansSuccess(items: map<nat, Item>, orders: map<nat, Order>, ps: seq<Payment>, item: nat)
    ensures SoldConsistent(items, orders, ps) && item in items && items[item].sold ==> HasSuccess(ps, orders, item)
  {
    HasSuccessIffCount(ps, orders, item);
  }

  /** `UPDATE paymentdetails SET payment_status = ? WHERE order_id = ?`. */
  function WithStatus(ps: seq<Payment>, orderId: nat, status: PaymentStatus): (r: seq<Payment>)
    ensures |r| == |ps|
    ensures forall k | 0 <= k < |ps| ::
      r[k] == if ps[k].order == orderId then ps[k].(status := status) else ps[k]
  {
    seq(|ps|, k requires 0 <= k < |ps| => if ps[k].order == orderId then ps[k].(status := status) else ps[k])
  }

  /**
   * The override can break the invariant: an item sold through one `Success` payment
   * stays sold after that payment is set to `Failed`.
   */
  lemma OverrideCanBreakSoldInvariant()
    ensures var items := map[1 := Item(2, 1, "lamp", None, 500, None, true)];
      var orders := map[7 := Order(1, 3, 2)];
      var ps := [Payment(7, 1, Success)];
      SoldConsistent(items, orders, ps) && !SoldConsistent(items, orders, WithStatus(ps, 7, Failed))
  {
    var items := map[1 := Item(2, 1, "lamp", None, 500, None, true)];
    var orders := map[7 := Order(1, 3, 2)];
    var ps := [Payment(7, 1, Success)];
    assert ps[..0] == [];
    assert SuccessFor(ps[0], orders, 1);
    assert SuccessCount(ps, orders, 1) == 1;
    var after := WithStatus(ps, 7, Failed);
    assert after == [Payment(7, 1, Failed)];
    assert after[..0] == [];
    assert SuccessCount(after, orders, 1) == 0;
  }

  /** `/signup`'s test for a taken e-mail or username. */
  predicate EmailTaken(accounts: map<nat, Account>, email: string) {
    exists id | id in accounts :: accounts[id].email == email
  }

  predicate UsernameTaken(accounts: map<nat, Account>, username: string) {
    exists id | id in accounts :: accounts[id].username == username
  }

  /** `DELETE /api/products/:id`'s test for orders of the product. */
  predicate HasOrders(orders: map<nat, Order>, product: nat) {
    exists o | o in orders :: orders[o].product == product
  }

  /** Some payment row belongs to the order. */
  predicate HasPaymentRow(ps: seq<Payment>, orderId: nat) {
    exists k | 0 <= k < |ps| :: ps[k].order == orderId
  }

  /** The `status` of `PUT /api/purchases/:id/status`, when it is one of the two accepted. */
  function ParsePaymentStatus(s: string): (r: Option<PaymentStatus>)
    ensures r == Some(Success) <==> s == "Success"
    ensures r == Some(Failed) <==> s == "Failed"
  {
    if s == "Success" then Some(Success) else if s == "Failed" then Some(Failed) else None
  }

  /** The `status` of `PUT /api/users/:id/status`, when it is one of the two accepted. */
  function ParseUserStatus(s: string): (r: Option<UserStatus>)
    ensures r == Some(Active) <==> s == "Active"
    ensures r == Some(Inactive) <==> s == "Inactive"
  {
    if s == "Active" then Some(Active) else if s == "Inactive" then Some(Inactive) else None
  }

  /** The wishlist after `POST /api/wishlist/toggle`: the pair removed when present, added otherwise. */
  function Toggle(w: set<(nat, nat)>, pair: (nat, nat)): (r: set<(nat, nat)>)
    ensures pair in r <==> pair !in w
    ensures forall q | q != pair :: q in r <==> q in w
  {
    if pair in w then w - {pair} else w + {pair}
  }

  /** Toggling the same pair twice gives the wishlist back. */
  lemma ToggleTwice(w: set<(nat, nat)>, pair: (nat, nat))
    ensures Toggle(Toggle(w, pair), pair) == w
  {
  }

  /** The image path `PUT /api/products/:id` stores: the new upload's, or the old one. */
  function EditedImage(old_url: Option<string>, upload: Option<string>): (r: Option<string>)
    ensures upload == None ==> r == old_url
    ensures upload != None ==> r == Some("/uploads/product-images/" + upload.value)
  {
    match upload
    case None => old_url
    case Some(file) => Some("/uploads/product-images/" + file)
  }

  class Store {
    var accounts: map<nat, Account>
    var items: map<nat, Item>
    var orders: map<nat, Order>
    var payments: seq<Payment>
    /** The saved card of each customer, by customer id. */
    var cards: map<nat, Card>
    /** `(customer, item)` pairs. */
    var wishlist: set<(nat, nat)>
    /** The AUTO_INCREMENT counters; a rolled-back insert does not give its id back. */
    var nextAccountId: nat
    var nextItemId: nat
    var nextOrderId: nat
    var nextCardId: nat

    /** Ids below their counters; every order's item and every payment's order exist. */
    ghost predicate Valid()
      reads this
    {
      1 <= nextAccountId && 1 <= nextItemId && 1 <= nextOrderId && 1 <= nextCardId &&
      (forall id | id in accounts :: 1 <= id < nextAccountId) &&
      (forall id | id in items :: 1 <= id < nextItemId) &&
      (forall id | id in orders :: 1 <= id < nextOrderId) &&
      (forall c | c in cards :: 1 <= cards[c].id < nextCardId) &&
      (forall id | id in orders :: orders[id].product in items) &&
      (forall k | 0 <= k < |payments| :: payments[k].order in orders)
    }

    ghost predicate SoldInvariant()
      reads this
    {
      SoldConsistent(items, orders, payments)
    }

    /** The order exists, belongs to `user` and its item exists (the payment route's JOIN). */
    predicate OrderOf(orderId: nat, user: nat)
      reads this
    {
      orderId in orders && orders[orderId].buyer == user && orders[orderId].product in items
    }

    constructor ()
      ensures Valid() && SoldInvariant()
      ensures accounts == map[] && items == map[] && orders == map[] && payments == []
      ensures cards == map[] && wishlist == {}
    {
      accounts, items, orders, payments := map[], map[], map[], [];
      cards, wishlist := map[], {};
      nextAccountId, nextItemId, nextOrderId, nextCardId := 1, 1, 1, 1;
    }

    /**
     * `POST /signup`: a taken e-mail, then a taken username, then a missing password
     * are refused; otherwise a new active customer is inserted.
     */
    method Signup(username: string, email: string, password: Option<string>, phone: Option<string>, city: Option<string>)
      returns (r: Reply, id: nat)
      requires Valid()
      modifies this
      ensures Valid()
      ensures old(EmailTaken(accounts, email)) ==> r == Reply(400, "Email already exists")
      ensures !old(EmailTaken(accounts, email)) && old(UsernameTaken(accounts, username)) ==>
        r == Reply(400, "Username already exists")
      ensures (!old(EmailTaken(accounts, email)) && !old(UsernameTaken(accounts, username)) &&
               (password == None || password == Some(""))) ==> r == Reply(400, "Password is required")
      ensures r.code != 201 ==> unchanged(this)
      ensures r.code == 201 ==>
        id !in old(accounts) &&
        accounts == old(accounts)[id := Account(username, email, OrNull(phone), OrNull(city), Customer, Active)] &&
        items == old(items) && orders == old(orders) && payments == old(payments) &&
        cards == old(cards) && wishlist == old(wishlist)
      ensures r.code == 201 <==>
        !old(EmailTaken(accounts, email)) && !old(UsernameTaken(accounts, username)) &&
        password != None && password != Some("")
      ensures old(SoldInvariant()) ==> SoldInvariant()
    {
      id := 0;
      if EmailTaken(accounts, email) {
        return Reply(400, "Email already exists"), id;
      }
      if UsernameTaken(accounts, username) {
        return Reply(400, "Username already exists"), id;
      }
      if password == None || password == Some("") {
        return Reply(400, "Password is required"), id;
      }
      id := nextAccountId;
      accounts := accounts[id := Account(username, email, OrNull(phone), OrNull(city), Customer, Active)];
      nextAccountId := nextAccountId + 1;
      r := Reply(201, "User created successfully");
    }

    /** `POST /api/items`: an item needs an image; it is listed unsold under the caller. */
    method AddItem(user: nat, subcategory: nat, name: string, description: Option<string>, price: int, upload: Option<string>)
      returns (r: Reply, id: nat)
      requires Valid()
      modifies this
      ensures Valid()
      ensures upload == None <==> r == Reply(400, "Product image is required")
      ensures upload != None ==> r == Reply(201, "Item listed successfully")
      ensures r.code != 201 ==> unchanged(this)
      ensures r.code == 201 ==>
        id !in old(items) &&
        items == old(items)[id := Item(user, subcategory, name, description, price,
                                       Some("/uploads/product-images/" + upload.value), false)] &&
        accounts == old(accounts) && orders == old(orders) && payments == old(payments) &&
        cards == old(cards) && wishlist == old(wishlist)
      ensures old(SoldInvariant()) ==> SoldInvariant()
    {
      id := 0;
      if upload == None {
        return Reply(400, "Product image is required"), id;
      }
      id := nextItemId;
      ghost var before := items;
      items := items[id := Item(user, subcategory, name, description, price,
                                Some("/uploads/product-images/" + upload.value), false)];
      nextItemId := nextItemId + 1;
      r := Reply(201, "Item listed successfully");
      if SoldConsistent(before, orders, payments) {
        SuccessCountNoOrders(payments, orders, id);
      }
    }

    /**
     * `POST /api/orders`: only an existing unsold item can be ordered; the order's
     * seller is the item's owner and its buyer the caller.
     */
    method CreateOrder(buyer: nat, product: nat) returns (r: Reply, id: nat)
      requires Valid()
      modifies this
      ensures Valid()
      ensures r.code == 201 <==> product in old(items) && !old(items)[product].sold
      ensures r.code != 201 ==> r == Reply(404, "Item not found or already sold") && unchanged(this)
      ensures r.code == 201 ==>
        id !in old(orders) &&
        orders == old(orders)[id := Order(product, buyer, old(items)[product].owner)] &&
        accounts == old(accounts) && items == old(items) && payments == old(payments) &&
        cards == old(cards) && wishlist == old(wishlist)
      ensures old(SoldInvariant()) ==> SoldInvariant()
    {
      id := 0;
      if product !in items || items[product].sold {
        return Reply(404, "Item not found or already sold"), id;
      }
      id := nextOrderId;
      var ord := Order(product, buyer, items[product].owner);
      forall i | i in items ensures SuccessCount(payments, orders[id := ord], i) == SuccessCount(payments, orders, i) {
        SuccessCountNewOrder(payments, orders, id, ord, i);
      }
      orders := orders[id := ord];
      nextOrderId := nextOrderId + 1;
      r := Reply(201, "Order created successfully");
    }

    /**
     * `POST /api/payments`. Refused, with every table as it was: an order that does
     * not exist or is not the caller's (404); an item with a `Success` payment
     * already (400); invalid card details (400). Otherwise the caller's card is
     * updated (keeping its id) or inserted, the item is marked sold if it is still
     * unsold, and one `Success` row is inserted. When the item was already marked
     * sold the conditional update touches no row, the handler throws and the
     * transaction is rolled back (500).
     */
    method Pay(user: nat, orderId: nat, details: CardDetails, today: Today) returns (r: Reply)
      requires Valid()
      modifies this
      ensures Valid()
      ensures !old(OrderOf(orderId, user)) <==> r == Reply(404, "Order not found or access denied")
      ensures old(OrderOf(orderId, user)) ==>
        var item := old(orders)[orderId].product;
        var soldOut := old(HasSuccess(payments, orders, item));
        (soldOut <==> r == Reply(400, "Item is sold out")) &&
        (!soldOut && !ValidateCardDetails(details, today) <==> r == Reply(400, "Invalid card details")) &&
        (!soldOut && ValidateCardDetails(details, today) && old(items)[item].sold <==>
          r == Reply(500, "Error processing payment")) &&
        (!soldOut && ValidateCardDetails(details, today) && !old(items)[item].sold ==>
          r == Reply(200, "Payment processed successfully")) &&
        (r.code == 200 ==>
          r.message == "Payment processed successfully" &&
          items == old(items)[item := old(items)[item].(sold := true)] &&
          user in cards &&
          cards == old(cards)[user := Card(cards[user].id, details.cardNumber,
                                           ExpiryToDate(details.expiryDate), details.cardHolderName)] &&
          (user in old(cards) ==> cards[user].id == old(cards)[user].id) &&
          payments == old(payments) + [Payment(orderId, cards[user].id, Success)])
      ensures r.code == 400 || r.code == 404 ==> unchanged(this)
      ensures r.code != 200 ==>
        accounts == old(accounts) && items == old(items) && orders == old(orders) &&
        payments == old(payments) && cards == old(cards) && wishlist == old(wishlist)
      ensures accounts == old(accounts) && orders == old(orders) && wishlist == old(wishlist)
      ensures r.code == 200 || r.code == 400 || r.code == 404 || r.code == 500
      ensures old(SoldInvariant()) ==> SoldInvariant() && r.code != 500
    {
      if !OrderOf(orderId, user) {
        return Reply(404, "Order not found or access denied");
      }
      var item := orders[orderId].product;
      if HasSuccess(payments, orders, item) {
        return Reply(400, "Item is sold out");
      }
      if !ValidateCardDetails(details, today) {
        return Reply(400, "Invalid card details");
      }
      r := Charge(user, orderId, details.cardNumber, ExpiryToDate(details.expiryDate), details.cardHolderName);
    }

    /**
     * The writes of the payment transaction, once every check has passed: the card
     * upsert, the conditional `UPDATE items SET is_sold = 'Yes' ... AND is_sold = 'No'`
     * and the payment insert. When the update matches no row the card write is rolled
     * back (the card id counter keeps its advance, as AUTO_INCREMENT does).
     */
    method Charge(user: nat, orderId: nat, number: string, expiry: string, holder: string) returns (r: Reply)
      requires Valid() && OrderOf(orderId, user)
      requires !HasSuccess(payments, orders, orders[orderId].product)
      modifies this`items, this`payments, this`cards, this`nextCardId
      ensures Valid()
      ensures var item := old(orders)[orderId].product;
        (old(items)[item].sold <==> r == Reply(500, "Error processing payment")) &&
        (!old(items)[item].sold <==> r == Reply(200, "Payment processed successfully")) &&
        (r.code == 500 ==> items == old(items) && payments == old(payments) && cards == old(cards)) &&
        (r.code == 200 ==>
          items == old(items)[item := old(items)[item].(sold := true)] &&
          user in cards &&
          cards == old(cards)[user := Card(cards[user].id, number, expiry, holder)] &&
          (user in old(cards) ==> cards[user].id == old(cards)[user].id) &&
          payments == old(payments) + [Payment(orderId, cards[user].id, Success)])
      ensures old(SoldInvariant()) ==> SoldInvariant() && r.code == 200
    {
      var item := orders[orderId].product;
      var savedCards := cards;
      var cardId := UpsertCard(user, number, expiry, holder);
      if items[item].sold {
        // the conditional UPDATE matched no row: throw, roll back
        cards := savedCards;
        SoldMeansSuccess(items, orders, payments, item);
        return Reply(500, "Error processing payment");
      }
      if SoldConsistent(items, orders, payments) {
        PaySuccessKeepsSold(items, orders, payments, orderId, cardId);
      }
      RecordPayment(orderId, cardId);
      r := Reply(200, "Payment processed successfully");
    }

    /** The committed writes of a payment: the item marked sold and one `Success` row appended. */
    method RecordPayment(orderId: nat, cardId: nat)
      requires Valid() && orderId in orders
      modifies this`items, this`payments
      ensures Valid()
      ensures var item := orders[orderId].product;
        items == old(items)[item := old(items)[item].(sold := true)]
      ensures payments == old(payments) + [Payment(orderId, cardId, Success)]
    {
      var item := orders[orderId].product;
      items := items[item := items[item].(sold := true)];
      payments := payments + [Payment(orderId, cardId, Success)];
    }

    /** `POST /api/wishlist/toggle`: a missing item id is refused; otherwise the pair is toggled. */
    method ToggleWishlist(user: nat, itemId: Option<nat>) returns (r: Reply, removed: bool)
      requires Valid()
      modifies this`wishlist
      ensures Valid()
      ensures itemId == None || itemId == Some(0) <==> r == Reply(400, "Item ID is required")
      ensures itemId != None && itemId != Some(0) ==> r.code == 200
      ensures r.code == 400 ==> wishlist == old(wishlist)
      ensures r.code != 400 ==>
        removed == ((user, itemId.value) in old(wishlist)) &&
        wishlist == Toggle(old(wishlist), (user, itemId.value)) &&
        r == (if removed then Reply(200, "Removed from wishlist") else Reply(200, "Added to wishlist"))
    {
      removed := false;
      if itemId == None || itemId == Some(0) {
        return Reply(400, "Item ID is required"), removed;
      }
      var pair := (user, itemId.value);
      if pair in wishlist {
        wishlist := wishlist - {pair};
        removed := true;
        r := Reply(200, "Removed from wishlist");
      } else {
        wishlist := wishlist + {pair};
        r := Reply(200, "Added to wishlist");
      }
    }

    /**
     * `DELETE /api/products/:id`: refused for a missing product (404), another owner's
     * product (403), a sold product (400) and a product with orders (400), in that order.
     */
    method DeleteProduct(user: nat, product: nat) returns (r: Reply)
      requires Valid()
      modifies this`items
      ensures Valid()
      ensures product !in old(items) <==> r == Reply(404, "Product not found")
      ensures product in old(items) ==>
        (old(items)[product].owner != user <==> r == Reply(403, "Unauthorized")) &&
        (old(items)[product].owner == user && old(items)[product].sold <==>
          r == Reply(400, "Cannot delete sold product")) &&
        (old(items)[product].owner == user && !old(items)[product].sold && HasOrders(orders, product) <==>
          r == Reply(400, "Product has associated orders"))
      ensures (product in old(items) && old(items)[product].owner == user && !old(items)[product].sold &&
               !HasOrders(orders, product)) ==> r == Reply(200, "Product deleted successfully")
      ensures r.code == 200 <==> r == Reply(200, "Product deleted successfully")
      ensures r.code == 200 ==> items == old(items) - {product}
      ensures r.code != 200 ==> items == old(items)
      ensures old(SoldInvariant()) ==> SoldInvariant()
    {
      if product !in items {
        return Reply(404, "Product not found");
      }
      if items[product].owner != user {
        return Reply(403, "Unauthorized");
      }
      if items[product].sold {
        return Reply(400, "Cannot delete sold product");
      }
      if HasOrders(orders, product) {
        return Reply(400, "Product has associated orders");
      }
      items := items - {product};
      r := Reply(200, "Product deleted successfully");
    }

    /**
     * `PUT /api/products/:id`: the same three guards as delete; the name, description
     * (empty stored as NULL) and price are replaced, the image only when a new file
     * comes with the request.
     */
    method EditProduct(user: nat, product: nat, name: string, description: Option<string>, price: int, upload: Option<string>)
      returns (r: Reply)
      requires Valid()
      modifies this`items
      ensures Valid()
      ensures product !in old(items) <==> r == Reply(404, "Product not found")
      ensures product in old(items) ==>
        (old(items)[product].owner != user <==> r == Reply(403, "Unauthorized")) &&
        (old(items)[product].owner == user && old(items)[product].sold <==>
          r == Reply(400, "Cannot edit sold product"))
      ensures product in old(items) && old(items)[product].owner == user && !old(items)[product].sold ==>
        r.code == 200
      ensures r.code != 200 ==> items == old(items)
      ensures r.code == 200 ==>
        items == old(items)[product := old(items)[product].(
          name := name, description := OrNull(description), price := price,
          imageUrl := EditedImage(old(items)[product].imageUrl, upload))]
      ensures old(SoldInvariant()) ==> SoldInvariant()
    {
      if product !in items {
        return Reply(404, "Product not found");
      }
      if items[product].owner != user {
        return Reply(403, "Unauthorized");
      }
      if items[product].sold {
        return Reply(400, "Cannot edit sold product");
      }
      var it := items[product];
      items := items[product := it.(name := name, description := OrNull(description), price := price,
                                     imageUrl := EditedImage(it.imageUrl, upload))];
      r := Reply(200, "");
    }

    /** `POST /api/user/card`: update the caller's card (keeping its id) or insert one; no validation. */
    method SaveCard(user: nat, number: string, expiry: string, holder: string) returns (r: Reply)
      requires Valid()
      modifies this`cards, this`nextCardId
      ensures Valid()
      ensures r == Reply(200, "Card saved successfully")
      ensures user in cards && cards == old(cards)[user := Card(cards[user].id, number, expiry, holder)]
      ensures user in old(cards) ==> cards[user].id == old(cards)[user].id
    {
      var _ := UpsertCard(user, number, expiry, holder);
      r := Reply(200, "Card saved successfully");
    }

    /** The card upsert of the save-card route and the payment transaction: one row per customer, its id kept. */
    method UpsertCard(user: nat, number: string, expiry: string, holder: string) returns (id: nat)
      requires Valid()
      modifies this`cards, this`nextCardId
      ensures Valid()
      ensures cards == old(cards)[user := Card(id, number, expiry, holder)]
      ensures user in old(cards) ==> id == old(cards)[user].id
      ensures old(nextCardId) <= nextCardId
    {
      if user in cards {
        id := cards[user].id;
      } else {
        id := nextCardId;
        nextCardId := nextCardId + 1;
      }
      cards := cards[user := Card(id, number, expiry, holder)];
    }

    /** `PUT /api/user/card`: a caller without a card gets 500; otherwise the card is rewritten. */
    method UpdateCard(user: nat, number: string, expiry: string, holder: string) returns (r: Reply)
      requires Valid()
      modifies this`cards
      ensures Valid()
      ensures user !in old(cards) <==> r == Reply(500, "Error updating card details")
      ensures user !in old(cards) ==> cards == old(cards)
      ensures user in old(cards) ==>
        r == Reply(200, "Card updated successfully") &&
        cards == old(cards)[user := Card(old(cards)[user].id, number, expiry, holder)]
    {
      if user !in cards {
        return Reply(500, "Error updating card details");
      }
      cards := cards[user := cards[user].(number := number, expiry := expiry, holder := holder)];
      r := Reply(200, "Card updated successfully");
    }

    /** `DELETE /api/user/card`: a caller without a card gets 500; otherwise the card is removed. */
    method DeleteCard(user: nat) returns (r: Reply)
      requires Valid()
      modifies this`cards
      ensures Valid()
      ensures user !in old(cards) <==> r == Reply(500, "Error deleting card")
      ensures cards == old(cards) - {user}
      ensures user in old(cards) ==> r == Reply(200, "Card deleted successfully")
    {
      if user !in cards {
        return Reply(500, "Error deleting card");
      }
      cards := cards - {user};
      r := Reply(200, "Card deleted successfully");
    }

    /**
     * `PUT /api/users/:id/status`: only "Active" and "Inactive" are accepted; the
     * update does not check that the user exists and answers 200 either way.
     */
    method UpdateUserStatus(id: nat, status: string) returns (r: Reply)
      requires Valid()
      modifies this`accounts
      ensures Valid()
      ensures ParseUserStatus(status) == None <==> r == Reply(400, "Invalid status")
      ensures ParseUserStatus(status) == None ==> accounts == old(accounts)
      ensures ParseUserStatus(status) != None ==>
        r == Reply(200, "User status updated successfully") &&
        accounts == (if id in old(accounts)
                     then old(accounts)[id := old(accounts)[id].(status := ParseUserStatus(status).value)]
                     else old(accounts))
    {
      var parsed := ParseUserStatus(status);
      if parsed == None {
        return Reply(400, "Invalid status");
      }
      if id in accounts {
        accounts := accounts[id := accounts[id].(status := parsed.value)];
      }
      r := Reply(200, "User status updated successfully");
    }

    /**
     * `PUT /api/purchases/:id/status`: only "Success" and "Failed" are accepted; an
     * order without a payment row gets 404; otherwise every payment row of that order
     * takes the new status. Items are not touched, so the sold flag can disagree with
     * the payments afterwards.
     */
    method OverridePaymentStatus(orderId: nat, status: string) returns (r: Reply)
      requires Valid()
      modifies this`payments
      ensures Valid()
      ensures ParsePaymentStatus(status) == None <==>
        r == Reply(400, "Invalid status. Use Success or Failed only.")
      ensures ParsePaymentStatus(status) != None && !old(HasPaymentRow(payments, orderId)) <==>
        r == Reply(404, "Purchase not found")
      ensures ParsePaymentStatus(status) != None && old(HasPaymentRow(payments, orderId)) ==> r.code == 200
      ensures r.code != 200 ==> payments == old(payments)
      ensures r.code == 200 ==> payments == WithStatus(old(payments), orderId, ParsePaymentStatus(status).value)
    {
      var parsed := ParsePaymentStatus(status);
      if parsed == None {
        return Reply(400, "Invalid status. Use Success or Failed only.");
      }
      if !HasPaymentRow(payments, orderId) {
        return Reply(404, "Purchase not found");
      }
      payments := WithStatus(payments, orderId, parsed.value);
      r := Reply(200, "");
    }
  }

  /** The token after `Bearer ` in an `Authorization` header, up to the next blank. */
  function BearerToken(header: Option<string>): (token: Option<string>)
    ensures header == None ==> token == None
    ensures header != None && !(|header.value| >= 7 && header.value[..7] == "Bearer ") ==> token == None
    ensures token != None ==> ' ' !in token.value
  {
    if header == None || !(|header.value| >= 7 && header.value[..7] == "Bearer ") then None
    else Some(UpToBlank(header.value[7..]))
  }

  /** The text before the first blank (the second field of `split(" ")` after `Bearer`). */
  function UpToBlank(s: string): (r: string)
    ensures r <= s && ' ' !in r
    ensures |r| < |s| ==> s[|r|] == ' '
    decreases |s|
  {
    if s == [] || s[0] == ' ' then [] else [s[0]] + UpToBlank(s[1..])
  }

  /** A header made of `Bearer ` and a token without blanks yields that token. */
  lemma {:induction false} BearerTokenRoundTrip(token: string)
    requires ' ' !in token
    ensures BearerToken(Some("Bearer " + token)) == Some(token)
  {
    var h := "Bearer " + token;
    assert h[..7] == "Bearer ";
    assert h[7..] == token;
    UpToBlankWhole(token);
  }

  lemma {:induction false} UpToBlankWhole(s: string)
    requires ' ' !in s
    ensures UpToBlank(s) == s
    decreases |s|
  {
    if s != [] {
      assert s[0] in s;
      assert forall c | c in s[1..] :: c in s;
      UpToBlankWhole(s[1..]);
    }
  }
}
