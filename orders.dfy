/**
 One row of the order table and the logic that reads or rewrites a single row:
 the field defaults, the completeness check `check_done` and the order-ID
 assignment done by the `pre_save` handler. Money is held as integer cents
 (9.99 is 999).
 */
module Orders {

  datatype Option<+T> = None | Some(value: T)

  type ProfileId = nat
  type CartId = nat
  type AddressId = nat

  /** What the slug generator hands back: some non-empty string (nothing is assumed about uniqueness). */
  type Slug = s: string | s != "" witness "0"

  /** The two status values the ledger itself writes. */
  const Created: string := "created"
  const Paid: string := "paid"

  /** Field defaults of the order record, in cents. */
  const DefaultShippingTotal: int := 999
  const DefaultTotal: int := 0

  /**
   An order record. Every foreign key is nullable: `None` is a NULL column.
   `status` is a free string column (the status choices are not attached to it).
   */
  datatype Order = Order(
    billingProfile: Option<ProfileId>,
    shippingAddress: Option<AddressId>,
    billingAddress: Option<AddressId>,
    orderId: string,
    cart: Option<CartId>,
    status: string,
    shippingTotal: int,
    total: int,
    active: bool)

  /**
   The record `create(billing_profile = bp, cart = cart)` builds: every other
   field at its default. Such a record is open, has no order ID yet, carries
   the default shipping total and a zero total, and is not complete.
   */
  function NewRecord(bp: Option<ProfileId>, cart: Option<CartId>): (r: Order)
    ensures r.billingProfile == bp && r.cart == cart
    ensures r.shippingAddress.None? && r.billingAddress.None?
    ensures IsOpen(r) && r.orderId == ""
    ensures r.shippingTotal == DefaultShippingTotal && r.total == DefaultTotal
    ensures CheckDone(r) == NotDone
  {
    Order(bp, None, None, "", cart, Created, DefaultShippingTotal, DefaultTotal, true)
  }

  /** An order that is still open for checkout: active and in status "created". */
  predicate IsOpen(o: Order)
  {
    o.active && o.status == Created
  }

  /**
   The three results `check_done` can produce: `True`, `False`, or a
   `ValidationError` object that is returned, not raised.
   */
  datatype Completion = Done | NotDone | Suspicious

  /**
   Python truthiness of a `check_done` result, as `if self.check_done():`
   tests it: `True` and the returned error object are truthy, `False` is not.
   */
  predicate Truthy(c: Completion)
  {
    c != NotDone
  }

  /** `Order.check_done`: reads the record and changes nothing. */
  function CheckDone(o: Order): (c: Completion)
    ensures o.total < 0 <==> c == Suspicious
    ensures o.total >= 0 ==>
      (Truthy(c) <==> o.billingProfile.Some? && o.shippingAddress.Some? && o.billingAddress.Some?)
    ensures o.total < 0 ==> Truthy(c)
  {
    if o.total < 0 then Suspicious
    else if o.billingProfile.Some? && o.shippingAddress.Some? && o.billingAddress.Some? then Done
    else NotDone
  }

  /**
   The `pre_save` handler: an empty order ID is replaced by the generated
   slug; an ID that is already set is left alone. No other field is touched.
   */
  function PreSave(o: Order, slug: Slug): (p: Order)
    ensures p.orderId != ""
    ensures o.orderId != "" ==> p == o
    ensures o.orderId == "" ==> p.orderId == slug
    ensures p == o.(orderId := p.orderId)
  {
    if o.orderId == "" then o.(orderId := slug) else o
  }

  /** Saving twice in a row assigns the ID at most once: the second `pre_save` is a no-op. */
  lemma PreSaveIdempotent(o: Order, slug1: Slug, slug2: Slug)
    ensures PreSave(PreSave(o, slug1), slug2) == PreSave(o, slug1)
  {
  }
}
