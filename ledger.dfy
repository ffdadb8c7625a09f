/**
 The order ledger: the order table and the cart totals it observes, with the
 manager method `new_or_get`, `update_total`, `mark_paid` and the
 lifecycle handlers run as explicit calls in the order the framework fires
 them (`pre_save`, the write, then `post_save`).
 */
module OrderLedger {
  import opened Orders
  import opened Queries

  /** At most one open order per (billing profile, cart) pair. The code never checks this, but it keeps it. */
  ghost predicate AtMostOneOpen(s: seq<Order>)
  {
    forall i, j :: 0 <= i < j < |s| && IsOpen(s[i]) && IsOpen(s[j]) ==>
      s[i].billingProfile != s[j].billingProfile || s[i].cart != s[j].cart
  }

  /** No order ID that was set in `before` differs in `after`, and no row has gone. */
  ghost predicate KeepsOrderIds(before: seq<Order>, after: seq<Order>)
  {
    |before| <= |after| &&
    forall j :: 0 <= j < |before| && before[j].orderId != "" ==> after[j].orderId == before[j].orderId
  }

  /** Under the invariant, an open order of a pair is the only one. */
  lemma OpenIsUnique(s: seq<Order>, bp: Option<ProfileId>, cart: CartId, i: nat, j: nat)
    requires AtMostOneOpen(s)
    requires i < |s| && j < |s| && Matches(OpenFor(bp, cart), s[i]) && Matches(OpenFor(bp, cart), s[j])
    ensures i == j
  {
  }

  /** Under the invariant, the open-order queryset of any pair holds at most one row. */
  lemma {:induction false} AtMostOneOpenCount(s: seq<Order>, bp: Option<ProfileId>, cart: CartId)
    requires AtMostOneOpen(s)
    ensures Count(s, OpenFor(bp, cart)) <= 1
  {
    if s != [] {
      var t := s[1..];
      assert forall j :: 0 <= j < |t| ==> t[j] == s[j + 1];
      assert AtMostOneOpen(t);
      AtMostOneOpenCount(t, bp, cart);
      if Matches(OpenFor(bp, cart), s[0]) {
        assert forall j :: 0 <= j < |t| ==> !Matches(OpenFor(bp, cart), t[j]);
        CountZero(t, OpenFor(bp, cart));
      }
    }
  }

  /**
   Rewriting one row keeps the invariant when the new row is not open, or is
   open for the same pair as a row that already was.
   */
  lemma RowUpdateKeepsAtMostOneOpen(s: seq<Order>, k: nat, o: Order)
    requires AtMostOneOpen(s) && k < |s|
    requires IsOpen(o) ==> IsOpen(s[k]) && o.billingProfile == s[k].billingProfile && o.cart == s[k].cart
    ensures AtMostOneOpen(s[k := o])
  {
    var r := s[k := o];
    forall i, j | 0 <= i < j < |r| && IsOpen(r[i]) && IsOpen(r[j])
      ensures r[i].billingProfile != r[j].billingProfile || r[i].cart != r[j].cart
    {
      assert IsOpen(s[i]) && IsOpen(s[j]);
    }
  }

  /**
   The record the create branch appends once its signals have run: the field
   defaults, the order ID from `pre_save`, and the total `post_save_order`
   computed from the cart's total.
   */
  function CreatedRecord(bp: Option<ProfileId>, cart: CartId, slug: Slug, cartTotal: int): Order
  {
    NewRecord(bp, Some(cart)).(orderId := slug, total := cartTotal + DefaultShippingTotal)
  }

  /**
   The order table after the create branch of `new_or_get`: the stale orders
   of the cart deactivated, then the new record appended.
   */
  function Reissued(s: seq<Order>, bp: Option<ProfileId>, cart: CartId, slug: Slug, cartTotal: int): seq<Order>
  {
    Deactivate(s, StaleFor(bp, cart)) + [CreatedRecord(bp, cart, slug, cartTotal)]
  }

  /**
   What the create branch does, row by row. The rows already in the table
   keep every field but the active flag, and that flag changes exactly on
   the stale rows (same cart, other billing profile, active); rows of the
   same billing profile stay as they were, duplicates included. One row is
   appended: an open order for the pair with the default shipping total,
   the generated ID and the cart's total plus shipping. Afterwards every
   active order of the cart belongs to the pair's billing profile.
   */
  lemma ReissuedRows(s: seq<Order>, bp: Option<ProfileId>, cart: CartId, slug: Slug, cartTotal: int)
    ensures var r := Reissued(s, bp, cart, slug, cartTotal);
      && |r| == |s| + 1
      && (forall j :: 0 <= j < |s| ==>
            r[j] == s[j].(active := r[j].active) &&
            (r[j].active != s[j].active <==> Matches(StaleFor(bp, cart), s[j])))
      && (forall j :: 0 <= j < |s| && s[j].billingProfile == bp ==> r[j] == s[j])
      && Matches(OpenFor(bp, cart), r[|s|])
      && r[|s|].shippingTotal == DefaultShippingTotal
      && r[|s|].total == cartTotal + DefaultShippingTotal
      && r[|s|].orderId == slug
      && (forall j :: 0 <= j < |r| && r[j].active && r[j].cart == Some(cart) ==> r[j].billingProfile == bp)
  {
    var d := Deactivate(s, StaleFor(bp, cart));
    var r := Reissued(s, bp, cart, slug, cartTotal);
    assert forall j :: 0 <= j < |s| ==> r[j] == d[j];
  }

  /** The create branch adds exactly one open order for the pair. */
  lemma ReissuedCount(s: seq<Order>, bp: Option<ProfileId>, cart: CartId, slug: Slug, cartTotal: int)
    ensures Count(Reissued(s, bp, cart, slug, cartTotal), OpenFor(bp, cart)) == Count(s, OpenFor(bp, cart)) + 1
  {
    StaleUpdateKeepsOpen(s, bp, cart);
    CountAppend(Deactivate(s, StaleFor(bp, cart)), CreatedRecord(bp, cart, slug, cartTotal), OpenFor(bp, cart));
  }

  /**
   The create branch keeps the invariant: a pair that does not have exactly
   one open order has none under the invariant, so after the stale orders
   of the cart are deactivated and the new order is appended there is
   still at most one open order per pair.
   */
  lemma ReissuedKeepsAtMostOneOpen(s: seq<Order>, bp: Option<ProfileId>, cart: CartId, slug: Slug, cartTotal: int)
    requires AtMostOneOpen(s) && Count(s, OpenFor(bp, cart)) != 1
    ensures AtMostOneOpen(Reissued(s, bp, cart, slug, cartTotal))
  {
    AtMostOneOpenCount(s, bp, cart);
    CountZero(s, OpenFor(bp, cart));
    var d := Deactivate(s, StaleFor(bp, cart));
    var r := Reissued(s, bp, cart, slug, cartTotal);
    forall i, j | 0 <= i < j < |r| && IsOpen(r[i]) && IsOpen(r[j])
      ensures r[i].billingProfile != r[j].billingProfile || r[i].cart != r[j].cart
    {
      assert r[i] == d[i];
      if j < |s| {
        assert r[j] == d[j];
        assert IsOpen(s[i]) && IsOpen(s[j]);
      } else {
        assert !Matches(OpenFor(bp, cart), s[i]);
      }
    }
  }

  class Ledger {
    /** The order table, in insertion (primary-key) order; a row's index is its identity. */
    var orders: seq<Order>
    /** The cart table, reduced to what the orders read from it: each cart's total in cents. */
    var cartTotals: map<CartId, int>

    /** The ledger over the tables as they stand when a request starts. */
    constructor (orders0: seq<Order>, carts0: map<CartId, int>)
      ensures orders == orders0 && cartTotals == carts0
    {
      orders := orders0;
      cartTotals := carts0;
    }

    /**
     `save()` of an existing row holding `o`: `pre_save` assigns a missing
     order ID, the row is written, and `post_save` runs with created=false,
     on which `post_save_order` does nothing.
     */
    method Save(i: nat, o: Order, slug: Slug)
      requires i < |orders|
      modifies this
      ensures orders == old(orders)[i := PreSave(o, slug)]
      ensures cartTotals == old(cartTotals)
    {
      orders := orders[i := PreSave(o, slug)];
    }

    /**
     `Order.update_total`: the total becomes the cart's total plus the order's
     shipping total, and the order is saved. The source dereferences the cart,
     so the order must reference a cart that exists.
     */
    method UpdateTotal(i: nat, slug: Slug) returns (newTotal: int)
      requires i < |orders| && orders[i].cart.Some? && orders[i].cart.value in cartTotals
      modifies this
      ensures newTotal == old(cartTotals[orders[i].cart.value] + orders[i].shippingTotal)
      ensures orders == old(orders)[i := PreSave(old(orders[i]).(total := newTotal), slug)]
      ensures orders[i].total == newTotal
      ensures cartTotals == old(cartTotals)
      ensures old(AtMostOneOpen(orders)) ==> AtMostOneOpen(orders)
      ensures KeepsOrderIds(old(orders), orders)
    {
      var o := orders[i];
      newTotal := cartTotals[o.cart.value] + o.shippingTotal;
      ghost var before := orders;
      Save(i, o.(total := newTotal), slug);
      if AtMostOneOpen(before) {
        RowUpdateKeepsAtMostOneOpen(before, i, orders[i]);
      }
    }

    /**
     `Order.objects.create(billing_profile=bp, cart=cart)`: `pre_save` gives
     the new record an order ID, the row is inserted, and `post_save` with
     created=true makes `post_save_order` call `update_total` on it.
     */
    method Create(bp: Option<ProfileId>, cart: CartId, slug: Slug) returns (i: nat)
      requires cart in cartTotals
      modifies this
      ensures i == |old(orders)|
      ensures orders == old(orders) +
        [NewRecord(bp, Some(cart)).(orderId := slug, total := old(cartTotals[cart]) + DefaultShippingTotal)]
      ensures cartTotals == old(cartTotals)
    {
      orders := orders + [PreSave(NewRecord(bp, Some(cart)), slug)];
      i := |orders| - 1;
      var _ := UpdateTotal(i, slug);
    }

    /**
     The fall-through branch of `new_or_get`: when the pair does not have
     exactly one open order, the active orders of the cart under a
     different billing profile are deactivated (if there are any) and a new
     order for the pair is created.
     */
    method Reissue(bp: Option<ProfileId>, cart: CartId, slug: Slug) returns (i: nat)
      requires cart in cartTotals
      modifies this
      ensures i == |old(orders)|
      ensures orders == Reissued(old(orders), bp, cart, slug, old(cartTotals[cart]))
      ensures cartTotals == old(cartTotals)
    {
      ghost var before := orders;
      var stale := StaleFor(bp, cart);
      if Count(orders, stale) > 0 {
        orders := Deactivate(orders, stale);
      } else {
        DeactivateNothing(orders, stale);
      }
      i := Create(bp, cart, slug);
    }

    /**
     `OrderManager.new_or_get`. If exactly one open order matches the pair it
     is returned with created=false and nothing changes. Otherwise every
     active order of the cart under a different billing profile is
     deactivated and a new order for the pair is created.
     */
    method NewOrGet(bp: Option<ProfileId>, cart: CartId, slug: Slug) returns (i: nat, created: bool)
      requires cart in cartTotals
      modifies this
      ensures cartTotals == old(cartTotals)
      ensures created <==> Count(old(orders), OpenFor(bp, cart)) != 1
      ensures i < |orders| && Matches(OpenFor(bp, cart), orders[i])
      // reuse: the single match, table unchanged
      ensures !created ==> orders == old(orders) && i == First(old(orders), OpenFor(bp, cart))
      ensures !created ==> forall j :: 0 <= j < |orders| && Matches(OpenFor(bp, cart), orders[j]) ==> j == i
      // create: stale orders deactivated, one new order appended
      ensures created ==> i == |old(orders)| && orders == Reissued(old(orders), bp, cart, slug, old(cartTotals[cart]))
      ensures created ==> orders[i].total == old(cartTotals[cart]) + DefaultShippingTotal && orders[i].orderId == slug
      ensures Count(orders, OpenFor(bp, cart)) == if created then Count(old(orders), OpenFor(bp, cart)) + 1 else 1
      // invariants
      ensures old(AtMostOneOpen(orders)) ==> AtMostOneOpen(orders)
      ensures AtMostOneOpen(orders) ==> forall j :: 0 <= j < |orders| && Matches(OpenFor(bp, cart), orders[j]) ==> j == i
      ensures KeepsOrderIds(old(orders), orders)
    {
      var open := OpenFor(bp, cart);
      if Count(orders, open) == 1 {
        i := First(orders, open);
        created := false;
        forall j | 0 <= j < |orders| && Matches(open, orders[j]) ensures j == i {
          CountOne(orders, open, j);
        }
      } else {
        ghost var before := orders;
        i := Reissue(bp, cart, slug);
        created := true;
        ReissuedRows(before, bp, cart, slug, cartTotals[cart]);
        ReissuedCount(before, bp, cart, slug, cartTotals[cart]);
        if AtMostOneOpen(before) {
          ReissuedKeepsAtMostOneOpen(before, bp, cart, slug, cartTotals[cart]);
        }
      }
      forall j | 0 <= j < |orders| && AtMostOneOpen(orders) && Matches(open, orders[j]) ensures j == i {
        OpenIsUnique(orders, bp, cart, i, j);
      }
    }

    /**
     A cart is saved with total `total`, then `post_save_cart_total` runs. On
     an update (the cart existed) the total of the order referencing the cart
     is recomputed only when exactly one order references it, whatever that
     order's status or active flag; otherwise no order changes.
     */
    method SaveCart(cart: CartId, total: int, slug: Slug)
      modifies this
      ensures cartTotals == old(cartTotals)[cart := total]
      ensures cart !in old(cartTotals) || Count(old(orders), ForCart(cart)) != 1 ==> orders == old(orders)
      ensures cart in old(cartTotals) && Count(old(orders), ForCart(cart)) == 1 ==>
        var k := First(old(orders), ForCart(cart));
        orders == old(orders)[k := PreSave(old(orders[k]).(total := total + old(orders[k].shippingTotal)), slug)]
      ensures old(AtMostOneOpen(orders)) ==> AtMostOneOpen(orders)
      ensures KeepsOrderIds(old(orders), orders)
    {
      var created := cart !in cartTotals;
      cartTotals := cartTotals[cart := total];
      if !created {
        var qs := ForCart(cart);
        if Count(orders, qs) == 1 {
          var k := First(orders, qs);
          var _ := UpdateTotal(k, slug);
        }
      }
    }

    /**
     `Order.mark_paid`: when `check_done` gives a truthy result the status
     becomes "paid", whatever it was, and the order is saved; otherwise
     nothing is written. The resulting status is returned either way. A
     negative total gives a truthy error object, so such an order is marked
     paid with or without addresses.
     */
    method MarkPaid(i: nat, slug: Slug) returns (status: string)
      requires i < |orders|
      modifies this
      ensures |orders| == |old(orders)| && status == orders[i].status
      ensures Truthy(CheckDone(old(orders[i]))) ==>
        status == Paid && orders == old(orders)[i := PreSave(old(orders[i]).(status := Paid), slug)]
      ensures !Truthy(CheckDone(old(orders[i]))) ==> status == old(orders[i].status) && orders == old(orders)
      ensures old(orders[i].total) < 0 ==> status == Paid
      ensures cartTotals == old(cartTotals)
      ensures old(AtMostOneOpen(orders)) ==> AtMostOneOpen(orders)
      ensures KeepsOrderIds(old(orders), orders)
    {
      ghost var before := orders;
      if Truthy(CheckDone(orders[i])) {
        Save(i, orders[i].(status := Paid), slug);
        if AtMostOneOpen(before) {
          RowUpdateKeepsAtMostOneOpen(before, i, orders[i]);
        }
      }
      status := orders[i].status;
    }
  }

  /**
   A checkout as a client sees it: a cart of 40.00 gives an order of 49.99;
   asking again for the same pair reuses that order; checking out the same
   cart under another billing profile deactivates the first order and leaves
   its status alone; the new order, read again from the table, has no
   addresses and is not marked paid.
   */
  method CheckoutScenario()
  {
    var ledger := new Ledger([], map[]);
    ledger.SaveCart(1, 4000, "unused-id");
    var i, created := ledger.NewOrGet(Some(7), 1, "a1b2c3");
    assert created && i == 0;
    assert ledger.orders[0].total == 4999 && ledger.orders[0].orderId == "a1b2c3";

    var j, again := ledger.NewOrGet(Some(7), 1, "d4e5f6");
    assert !again && j == i;
    assert ledger.orders[0].orderId == "a1b2c3";

    var k, other := ledger.NewOrGet(Some(8), 1, "g7h8i9");
    assert other && k == 1;
    assert !ledger.orders[0].active && ledger.orders[0].status == Created;

    var status := ledger.MarkPaid(1, "j0k1l2");
    assert status == Created;
  }
}
