/**
 * The shop views as a store of products, reviews, orders and order items:
 * one review per user and product, order creation that is undone when an
 * item is rejected, and the two payment steps.
 */
module ShopViews {
  import opened Common

  type ProductId = nat
  type UserId = nat
  type OrderId = nat

  datatype Review = Review(rating: int, comment: string)

  datatype OrderStatus = Pending | Processing | Shipped | Delivered | Cancelled
  datatype PaymentStatus = PaymentPending | PaymentProcessing | Completed | PaymentFailed | Refunded

  /** The order fields the views read or write. */
  datatype Order = Order(
    user: UserId,
    status: OrderStatus,
    paymentStatus: PaymentStatus,
    paymentMethod: string,
    transactionId: Option<string>)

  /** One entry of the request's `items` list. */
  datatype ItemData = ItemData(product: ProductId, quantity: int, price: real)

  datatype Problem = AlreadyReviewed | InvalidReview | InvalidItem | PaymentMethodRequired | TransactionIdRequired

  datatype Response = Created201 | Ok200 | BadRequest400(problem: Problem) | NotFound404 | ServerError500

  /** Python's `str.isspace` for one character. */
  predicate IsSpace(c: char)
  {
    c == ' ' || '\t' <= c <= '\r' || '\U{1C}' <= c <= '\U{1F}' || c == '\U{85}' || c == '\U{A0}' ||
    c == '\U{1680}' || '\U{2000}' <= c <= '\U{200A}' || c == '\U{2028}' || c == '\U{2029}' ||
    c == '\U{202F}' || c == '\U{205F}' || c == '\U{3000}'
  }

  /** `s.lstrip()`. */
  function StripStart(s: string): (r: string)
    ensures |r| <= |s| && r == s[|s| - |r|..]
    ensures r == [] || !IsSpace(r[0])
    ensures forall i :: 0 <= i < |s| - |r| ==> IsSpace(s[i])
  {
    if s != [] && IsSpace(s[0]) then
      var r := StripStart(s[1..]);
      assert forall i :: 1 <= i < |s| - |r| ==> s[i] == s[1..][i - 1];
      r
    else s
  }

  /** `s.rstrip()`. */
  function StripEnd(s: string): (r: string)
    ensures |r| <= |s| && r == s[..|r|]
    ensures r == [] || !IsSpace(r[|r| - 1])
    ensures forall i :: |r| <= i < |s| ==> IsSpace(s[i])
  {
    if s != [] && IsSpace(s[|s| - 1]) then
      var r := StripEnd(s[..|s| - 1]);
      assert forall i :: |r| <= i < |s| - 1 ==> s[i] == s[..|s| - 1][i];
      r
    else s
  }

  /** `r` is `s` with whitespace cut from both ends, `k` characters of it from the front. */
  predicate CutAt(s: string, r: string, k: nat)
  {
    k + |r| <= |s| && r == s[k..k + |r|] &&
    (forall i :: 0 <= i < k ==> IsSpace(s[i])) &&
    (forall i :: k + |r| <= i < |s| ==> IsSpace(s[i]))
  }

  /**
   * `s.strip()`, which the serializer's character field applies to its input:
   * the longest middle part of `s` that neither starts nor ends with
   * whitespace, and empty exactly when `s` is all whitespace.
   */
  function Strip(s: string): (r: string)
    ensures exists k: nat :: CutAt(s, r, k)
    ensures r == [] || (!IsSpace(r[0]) && !IsSpace(r[|r| - 1]))
    ensures r == [] <==> forall i :: 0 <= i < |s| ==> IsSpace(s[i])
  {
    StripCuts(s);
    StripEnd(StripStart(s))
  }

  /** Stripping both ends cuts whitespace only, and cuts all of an all-whitespace string. */
  lemma StripCuts(s: string)
    ensures CutAt(s, StripEnd(StripStart(s)), |s| - |StripStart(s)|)
    ensures StripEnd(StripStart(s)) == [] <==> forall i :: 0 <= i < |s| ==> IsSpace(s[i])
  {
    var t := StripStart(s);
    var r := StripEnd(t);
    var k := |s| - |t|;
    assert k + |r| <= |s|;
    assert r == s[k..k + |r|];
    assert forall i :: 0 <= i < k ==> IsSpace(s[i]);
    forall i | k + |r| <= i < |s| ensures IsSpace(s[i]) {
      assert s[i] == t[i - k];
    }
    assert CutAt(s, r, k);
    assert r != [] ==> r[0] == s[k];
  }

  /**
   * What the review serializer accepts: a rating among the model's choices
   * 1..5, and a comment with a non-whitespace character and no null
   * character (the character field refuses blanks and nulls).
   */
  predicate ReviewValid(rating: int, comment: string)
    ensures ReviewValid(rating, comment) <==>
      1 <= rating <= 5 && '\0' !in comment && exists i :: 0 <= i < |comment| && !IsSpace(comment[i])
  {
    1 <= rating <= 5 && '\0' !in comment && Strip(comment) != []
  }

  /** The order item serializer's product field. */
  datatype ItemSerializer =
    | ReadOnlyProduct  // `product = ProductSerializer(read_only=True)`: the client's product is dropped
    | WritableProduct  // a writable product key: its existence and `unique_together` are validated

  /** How `perform_create` reports a rejected item. */
  datatype RejectionReport =
    | ReturnResponse       // `return Response(..., 400)`, which the framework's `create` discards
    | RaiseValidationError // `raise ValidationError(...)`, which the framework answers with a 400

  /**
   * `item_serializer.is_valid()`, given the items already saved for the order.
   * `fieldsValid` is the validation of quantity, price and order key, taken as
   * given. With the read-only product nothing about the product is checked.
   */
  predicate ItemValid(item: ItemData, saved: seq<ItemData>, products: set<ProductId>,
                      fieldsValid: ItemData -> bool, serializer: ItemSerializer)
    ensures ItemValid(item, saved, products, fieldsValid, serializer) ==> fieldsValid(item)
    ensures serializer == ReadOnlyProduct ==> (ItemValid(item, saved, products, fieldsValid, serializer) <==> fieldsValid(item))
    ensures serializer == WritableProduct ==>
      (ItemValid(item, saved, products, fieldsValid, serializer) <==>
        fieldsValid(item) && item.product in products && forall p :: p in saved ==> p.product != item.product)
  {
    fieldsValid(item) &&
    (serializer == WritableProduct ==> item.product in products && forall p :: p in saved ==> p.product != item.product)
  }

  /** What the loop body does with one item. */
  datatype ItemStep = Rejected | Saved | SaveRaised

  /**
   * One item: rejected when invalid, otherwise `item_serializer.save()`. With
   * the read-only product the row is inserted without a product, and the
   * NOT NULL product key makes the insert raise.
   */
  function StepOf(item: ItemData, saved: seq<ItemData>, products: set<ProductId>,
                  fieldsValid: ItemData -> bool, serializer: ItemSerializer): (s: ItemStep)
    ensures s == Rejected <==> !ItemValid(item, saved, products, fieldsValid, serializer)
    ensures serializer == ReadOnlyProduct ==> s != Saved
    ensures serializer == WritableProduct ==> s != SaveRaised
  {
    if !ItemValid(item, saved, products, fieldsValid, serializer) then Rejected
    else if serializer == ReadOnlyProduct then SaveRaised
    else Saved
  }

  /** The first item, from position `k` on, that the loop does not save, if any. */
  function FirstStopFrom(items: seq<ItemData>, k: nat, products: set<ProductId>,
                         fieldsValid: ItemData -> bool, serializer: ItemSerializer): (r: Option<nat>)
    requires k <= |items|
    ensures r.Some? ==> (k <= r.value < |items| &&
      StepOf(items[r.value], items[..r.value], products, fieldsValid, serializer) != Saved)
    ensures r.Some? ==> forall j :: k <= j < r.value ==>
      StepOf(items[j], items[..j], products, fieldsValid, serializer) == Saved
    ensures r.None? ==> forall j :: k <= j < |items| ==>
      StepOf(items[j], items[..j], products, fieldsValid, serializer) == Saved
    decreases |items| - k
  {
    if k == |items| then None
    else if StepOf(items[k], items[..k], products, fieldsValid, serializer) != Saved then Some(k)
    else FirstStopFrom(items, k + 1, products, fieldsValid, serializer)
  }

  function FirstStop(items: seq<ItemData>, products: set<ProductId>,
                     fieldsValid: ItemData -> bool, serializer: ItemSerializer): Option<nat>
  {
    FirstStopFrom(items, 0, products, fieldsValid, serializer)
  }

  datatype CreateError = IntegrityError | ValidationError

  /** How `perform_create` ends: it returns (a rejection's response, or nothing) or it raises. */
  datatype Exit = Returned(rejection: Option<Problem>) | Raised(error: CreateError)

  /** Whether the order stays stored, the items stored for it, and how the call ends. */
  datatype CreateOutcome = CreateOutcome(kept: bool, saved: seq<ItemData>, exit: Exit)

  /**
   * `perform_create` after the order is saved: every item saved keeps the
   * order with all items; a rejected item deletes the order, and with it the
   * items saved so far; a save that raises leaves the order and those items
   * stored and propagates.
   */
  function CreateOutcomeOf(items: seq<ItemData>, products: set<ProductId>, fieldsValid: ItemData -> bool,
                           serializer: ItemSerializer, report: RejectionReport): (o: CreateOutcome)
    ensures FirstStop(items, products, fieldsValid, serializer).None? ==>
      o == CreateOutcome(true, items, Returned(None))
    ensures var j := FirstStop(items, products, fieldsValid, serializer);
      j.Some? && StepOf(items[j.value], items[..j.value], products, fieldsValid, serializer) == Rejected ==>
        !o.kept && o.exit == (if report == ReturnResponse then Returned(Some(InvalidItem)) else Raised(ValidationError))
    ensures var j := FirstStop(items, products, fieldsValid, serializer);
      j.Some? && StepOf(items[j.value], items[..j.value], products, fieldsValid, serializer) == SaveRaised ==>
        o == CreateOutcome(true, items[..j.value], Raised(IntegrityError))
  {
    match FirstStop(items, products, fieldsValid, serializer)
    case None => CreateOutcome(true, items, Returned(None))
    case Some(j) =>
      if StepOf(items[j], items[..j], products, fieldsValid, serializer) == Rejected then
        CreateOutcome(false, [], if report == ReturnResponse then Returned(Some(InvalidItem)) else Raised(ValidationError))
      else CreateOutcome(true, items[..j], Raised(IntegrityError))
  }

  /** How the call ends once the loop has stopped at `k` (or run through, when `k` is the number of items). */
  lemma SettleOutcome(items: seq<ItemData>, k: nat, products: set<ProductId>, fieldsValid: ItemData -> bool,
                      serializer: ItemSerializer, report: RejectionReport)
    requires k <= |items|
    requires FirstStop(items, products, fieldsValid, serializer) == FirstStopFrom(items, k, products, fieldsValid, serializer)
    requires k < |items| ==> StepOf(items[k], items[..k], products, fieldsValid, serializer) != Saved
    ensures var o := CreateOutcomeOf(items, products, fieldsValid, serializer, report);
      var rejected := k < |items| && !ItemValid(items[k], items[..k], products, fieldsValid, serializer);
      o.kept == !rejected && (o.kept ==> o.saved == items[..k]) &&
      o.exit == if k == |items| then Returned(None)
                else if rejected then (if report == ReturnResponse then Returned(Some(InvalidItem)) else Raised(ValidationError))
                else Raised(IntegrityError)
  {
    if k == |items| {
      assert items[..k] == items;
    }
  }

  /** Saving item `k` moves the loop on to `k + 1`. */
  lemma AdvancePastSaved(items: seq<ItemData>, k: nat, products: set<ProductId>, fieldsValid: ItemData -> bool,
                         serializer: ItemSerializer)
    requires k < |items|
    requires FirstStop(items, products, fieldsValid, serializer) == FirstStopFrom(items, k, products, fieldsValid, serializer)
    requires ItemValid(items[k], items[..k], products, fieldsValid, serializer) && serializer == WritableProduct
    ensures FirstStop(items, products, fieldsValid, serializer) == FirstStopFrom(items, k + 1, products, fieldsValid, serializer)
    ensures items[k].product in products
  {
  }

  /**
   * What the client receives from the framework's `create` around
   * `perform_create`. When `perform_create` returns, whatever it returned, the
   * framework renders the order: that is a 201 while the order is stored. A
   * deleted order has had its primary key cleared by the deletion, and reading
   * its reverse `items` relation then raises ValueError (Django 4.1 and later),
   * so the client gets a 500. A raised validation error is a 400, and any other
   * exception a 500.
   */
  function CreateResponse(exit: Exit, kept: bool): (r: Response)
    ensures r == Created201 <==> exit.Returned? && kept
    ensures r == BadRequest400(InvalidItem) <==> exit == Raised(ValidationError)
    ensures r == ServerError500 <==> exit == Raised(IntegrityError) || (exit.Returned? && !kept)
  {
    match exit
    case Returned(_) => if kept then Created201 else ServerError500
    case Raised(ValidationError) => BadRequest400(InvalidItem)
    case Raised(IntegrityError) => ServerError500
  }

  /**
   * As written, no order item is ever stored: the first item is either
   * rejected, or valid, and then its save raises, leaving the order stored
   * without items and answering 500.
   */
  lemma ReadOnlyProductStoresNoItem(items: seq<ItemData>, products: set<ProductId>,
                                    fieldsValid: ItemData -> bool, report: RejectionReport)
    ensures var o := CreateOutcomeOf(items, products, fieldsValid, ReadOnlyProduct, report);
      o.kept ==> o.saved == []
    ensures var o := CreateOutcomeOf(items, products, fieldsValid, ReadOnlyProduct, report);
      items != [] && fieldsValid(items[0]) ==>
        o == CreateOutcome(true, [], Raised(IntegrityError)) && CreateResponse(o.exit, o.kept) == ServerError500
  {
    if items != [] {
      assert FirstStop(items, products, fieldsValid, ReadOnlyProduct) == Some(0);
    }
  }

  /**
   * With a writable product, an order keeps all its items exactly when every
   * item is valid, names an existing product and no two name the same one:
   * `unique_together = ('order', 'product')` holds for every stored order.
   */
  lemma {:induction false} WritableProductStoresDistinctItems(items: seq<ItemData>, products: set<ProductId>,
                                                              fieldsValid: ItemData -> bool, report: RejectionReport)
    ensures var o := CreateOutcomeOf(items, products, fieldsValid, WritableProduct, report);
      o.exit == Returned(None) <==>
        (forall j :: 0 <= j < |items| ==> fieldsValid(items[j]) && items[j].product in products) &&
        (forall i, j :: 0 <= i < j < |items| ==> items[i].product != items[j].product)
    ensures var o := CreateOutcomeOf(items, products, fieldsValid, WritableProduct, report);
      o.exit == Returned(None) ==> o.kept && o.saved == items
  {
    var o := CreateOutcomeOf(items, products, fieldsValid, WritableProduct, report);
    var allSaved := forall j :: 0 <= j < |items| ==> StepOf(items[j], items[..j], products, fieldsValid, WritableProduct) == Saved;
    var good := (forall j :: 0 <= j < |items| ==> fieldsValid(items[j]) && items[j].product in products) &&
                (forall i, j :: 0 <= i < j < |items| ==> items[i].product != items[j].product);
    assert o.exit == Returned(None) <==> allSaved;
    if allSaved {
      forall i, j | 0 <= i < j < |items| ensures items[i].product != items[j].product {
        assert ItemValid(items[j], items[..j], products, fieldsValid, WritableProduct);
        assert items[i] in items[..j];
      }
    }
    if good {
      forall j | 0 <= j < |items|
        ensures StepOf(items[j], items[..j], products, fieldsValid, WritableProduct) == Saved
      {
        forall p | p in items[..j] ensures p.product != items[j].product {
          var i :| 0 <= i < j && items[..j][i] == p;
        }
      }
    }
  }

  /**
   * As written, a rejected item deletes the order, and the 400 `perform_create`
   * returns never reaches the client: rendering the deleted order fails, and
   * the client gets a 500.
   */
  lemma RejectedItemAnswered500(items: seq<ItemData>, products: set<ProductId>,
                                fieldsValid: ItemData -> bool, serializer: ItemSerializer, j: nat)
    requires FirstStop(items, products, fieldsValid, serializer) == Some(j)
    requires StepOf(items[j], items[..j], products, fieldsValid, serializer) == Rejected
    ensures var o := CreateOutcomeOf(items, products, fieldsValid, serializer, ReturnResponse);
      !o.kept && o.exit == Returned(Some(InvalidItem)) && CreateResponse(o.exit, o.kept) == ServerError500
  {
  }

  /** Raising the rejection instead lets the client see the 400 for the deleted order. */
  lemma RaisedRejectionAnswered400(items: seq<ItemData>, products: set<ProductId>,
                                   fieldsValid: ItemData -> bool, serializer: ItemSerializer, j: nat)
    requires FirstStop(items, products, fieldsValid, serializer) == Some(j)
    requires StepOf(items[j], items[..j], products, fieldsValid, serializer) == Rejected
    ensures var o := CreateOutcomeOf(items, products, fieldsValid, serializer, RaiseValidationError);
      !o.kept && CreateResponse(o.exit, o.kept) == BadRequest400(InvalidItem)
  {
  }

  /** Every stored order item names an existing product. */
  ghost predicate ItemsKnown(orderItems: map<OrderId, seq<ItemData>>, products: set<ProductId>)
  {
    forall id, item :: id in orderItems && item in orderItems[id] ==> item.product in products
  }

  /** Storing items that name existing products keeps every stored item known. */
  lemma ItemsKnownStore(orderItems: map<OrderId, seq<ItemData>>, products: set<ProductId>, id: OrderId, stored: seq<ItemData>)
    requires ItemsKnown(orderItems, products)
    requires forall item :: item in stored ==> item.product in products
    ensures ItemsKnown(orderItems[id := stored], products)
  {
  }

  /** Updating a key twice keeps only the second value. */
  lemma UpdateTwice<K, V>(m: map<K, V>, key: K, first: V, second: V)
    ensures m[key := first][key := second] == m[key := second]
  {
  }

  /** Deleting a key just added restores the map. */
  lemma RemoveAdded<K, V>(m: map<K, V>, key: K, value: V)
    requires key !in m
    ensures m[key := value] - {key} == m
  {
  }

  class Store {
    var products: set<ProductId>
    var reviews: map<(ProductId, UserId), Review>
    var orders: map<OrderId, Order>
    var orderItems: map<OrderId, seq<ItemData>>

    /**
     * Reviews and items belong to existing products and orders (cascade
     * deletion keeps it so), and no stored item lacks its product.
     */
    ghost predicate Valid()
      reads this
    {
      orderItems.Keys <= orders.Keys && (forall key :: key in reviews ==> key.0 in products) &&
      ItemsKnown(orderItems, products)
    }

    constructor (products: set<ProductId>)
      ensures Valid() && this.products == products
      ensures reviews == map[] && orders == map[] && orderItems == map[]
    {
      this.products := products;
      reviews, orders, orderItems := map[], map[], map[];
    }

    /**
     * `ProductViewSet.add_review`: at most one review per user and product;
     * the comment is stored as the serializer cleans it, stripped.
     */
    method AddReview(product: ProductId, user: UserId, rating: int, comment: string) returns (resp: Response)
      modifies this`reviews
      ensures old(Valid()) ==> Valid()
      ensures product !in products ==> resp == NotFound404 && reviews == old(reviews)
      ensures product in products && (product, user) in old(reviews) ==>
        resp == BadRequest400(AlreadyReviewed) && reviews == old(reviews)
      ensures product in products && (product, user) !in old(reviews) && !ReviewValid(rating, comment) ==>
        resp == BadRequest400(InvalidReview) && reviews == old(reviews)
      ensures product in products && (product, user) !in old(reviews) && ReviewValid(rating, comment) ==>
        resp == Created201 && reviews == old(reviews)[(product, user) := Review(rating, Strip(comment))]
    {
      if product !in products {
        return NotFound404;
      }
      if (product, user) in reviews {
        return BadRequest400(AlreadyReviewed);
      }
      if !ReviewValid(rating, comment) {
        return BadRequest400(InvalidReview);
      }
      reviews := reviews[(product, user) := Review(rating, Strip(comment))];
      resp := Created201;
    }

    /**
     * `OrderViewSet.perform_create`: saves the order for the user (`id` is the
     * key the database assigns), then validates and saves each item in turn.
     * A rejected item deletes the order, and with it the items already saved;
     * a save that raises leaves them stored.
     */
    method PerformCreate(id: OrderId, user: UserId, fields: Order, items: seq<ItemData>,
                         fieldsValid: ItemData -> bool, serializer: ItemSerializer, report: RejectionReport)
      returns (exit: Exit)
      requires Valid() && id !in orders
      modifies this`orders, this`orderItems
      ensures Valid()
      ensures var o := CreateOutcomeOf(items, products, fieldsValid, serializer, report);
        exit == o.exit &&
        orders == (if o.kept then old(orders)[id := fields.(user := user)] else old(orders)) &&
        orderItems == (if o.kept then old(orderItems)[id := o.saved] else old(orderItems))
    {
      orders := orders[id := fields.(user := user)];
      orderItems := orderItems[id := []];
      var k := SaveItems(id, items, fieldsValid, serializer);
      UpdateTwice(old(orderItems), id, [], items[..k]);
      ItemsKnownStore(old(orderItems), products, id, items[..k]);
      SettleOutcome(items, k, products, fieldsValid, serializer, report);
      if k == |items| {
        exit := Returned(None);
      } else if !ItemValid(items[k], items[..k], products, fieldsValid, serializer) {
        RemoveAdded(old(orders), id, fields.(user := user));
        RemoveAdded(old(orderItems), id, items[..k]);
        orders := orders - {id};
        orderItems := orderItems - {id};
        exit := if report == ReturnResponse then Returned(Some(InvalidItem)) else Raised(ValidationError);
      } else {
        // the valid item's row goes in without a product: the NOT NULL key raises
        exit := Raised(IntegrityError);
      }
    }

    /**
     * The `for item_data in items_data` loop up to the first item it does not
     * save: returns that item's position, or the number of items when all are
     * saved, with the items before it stored for the order.
     */
    method SaveItems(id: OrderId, items: seq<ItemData>, fieldsValid: ItemData -> bool, serializer: ItemSerializer)
      returns (k: nat)
      requires id in orderItems && orderItems[id] == []
      modifies this`orderItems
      ensures k <= |items| && orderItems == old(orderItems)[id := items[..k]]
      ensures FirstStop(items, products, fieldsValid, serializer) == FirstStopFrom(items, k, products, fieldsValid, serializer)
      ensures k < |items| ==> StepOf(items[k], items[..k], products, fieldsValid, serializer) != Saved
      ensures forall item :: item in items[..k] ==> item.product in products
    {
      k := 0;
      while k < |items|
        invariant 0 <= k <= |items|
        invariant orderItems == old(orderItems)[id := items[..k]]
        invariant forall item :: item in items[..k] ==> item.product in products
        invariant FirstStop(items, products, fieldsValid, serializer) == FirstStopFrom(items, k, products, fieldsValid, serializer)
      {
        if !ItemValid(items[k], orderItems[id], products, fieldsValid, serializer) || serializer == ReadOnlyProduct {
          return;
        }
        AdvancePastSaved(items, k, products, fieldsValid, serializer);
        orderItems := orderItems[id := orderItems[id] + [items[k]]];
        assert items[..k + 1] == items[..k] + [items[k]];
        k := k + 1;
      }
    }

    /** Whether the order is one the user's queryset holds: otherwise `get_object` answers 404. */
    predicate Visible(id: OrderId, user: UserId)
      reads this
    {
      id in orders && orders[id].user == user
    }

    /** `OrderViewSet.initiate_payment`: records the method and moves the order to processing. */
    method InitiatePayment(id: OrderId, user: UserId, paymentMethod: string) returns (resp: Response)
      modifies this`orders
      ensures old(Valid()) ==> Valid()
      ensures !old(Visible(id, user)) ==> resp == NotFound404 && orders == old(orders)
      ensures old(Visible(id, user)) && paymentMethod == [] ==>
        resp == BadRequest400(PaymentMethodRequired) && orders == old(orders)
      ensures old(Visible(id, user)) && paymentMethod != [] ==>
        resp == Ok200 &&
        orders == old(orders)[id := old(orders)[id].(paymentMethod := paymentMethod, status := Processing)]
    {
      if !Visible(id, user) {
        return NotFound404;
      }
      if paymentMethod == [] {
        return BadRequest400(PaymentMethodRequired);
      }
      orders := orders[id := orders[id].(paymentMethod := paymentMethod, status := Processing)];
      resp := Ok200;
    }

    /** `OrderViewSet.verify_payment`: records the transaction and marks the payment completed. */
    method VerifyPayment(id: OrderId, user: UserId, transactionId: string) returns (resp: Response)
      modifies this`orders
      ensures old(Valid()) ==> Valid()
      ensures !old(Visible(id, user)) ==> resp == NotFound404 && orders == old(orders)
      ensures old(Visible(id, user)) && transactionId == [] ==>
        resp == BadRequest400(TransactionIdRequired) && orders == old(orders)
      ensures old(Visible(id, user)) && transactionId != [] ==>
        resp == Ok200 &&
        orders == old(orders)[id := old(orders)[id].(transactionId := Some(transactionId),
                                                     paymentStatus := Completed, status := Processing)]
    {
      if !Visible(id, user) {
        return NotFound404;
      }
      if transactionId == [] {
        return BadRequest400(TransactionIdRequired);
      }
      orders := orders[id := orders[id].(transactionId := Some(transactionId),
                                         paymentStatus := Completed, status := Processing)];
      resp := Ok200;
    }
  }
}
