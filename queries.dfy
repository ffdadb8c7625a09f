/**
 The querysets the ledger evaluates over the order table, which is a sequence
 in primary-key order: filtering, `count()`, `first()` and the bulk
 `update(active=False)`.
 */
module Queries {
  import opened Orders

  /** The three filters the order code builds. */
  datatype Filter =
    /** `filter(billing_profile=bp, cart=cart, active=True, status='created')` */
    | OpenFor(bp: Option<ProfileId>, cart: CartId)
    /** `exclude(billing_profile=bp).filter(cart=cart, active=True)`; a NULL profile counts as different */
    | StaleFor(bp: Option<ProfileId>, cart: CartId)
    /** `filter(cart__id=cart)`, whatever the status or the active flag */
    | ForCart(cart: CartId)

  /** Whether a row is in the queryset of `f`. Every filter selects rows of its cart only. */
  predicate Matches(f: Filter, o: Order)
    ensures Matches(f, o) ==> o.cart == Some(f.cart)
    ensures Matches(f, o) && !f.ForCart? ==> o.active
  {
    match f
    case OpenFor(bp, c) => o.billingProfile == bp && o.cart == Some(c) && IsOpen(o)
    case StaleFor(bp, c) => o.billingProfile != bp && o.cart == Some(c) && o.active
    case ForCart(c) => o.cart == Some(c)
  }

  /** `queryset.count()` */
  function Count(s: seq<Order>, f: Filter): (n: nat)
    ensures n <= |s|
  {
    if s == [] then 0 else (if Matches(f, s[0]) then 1 else 0) + Count(s[1..], f)
  }

  /** `queryset.first()` on an unordered queryset: the matching row with the lowest primary key. */
  function First(s: seq<Order>, f: Filter): (i: nat)
    requires Count(s, f) > 0
    ensures i < |s| && Matches(f, s[i])
    ensures forall j :: 0 <= j < i ==> !Matches(f, s[j])
  {
    if Matches(f, s[0]) then 0 else 1 + First(s[1..], f)
  }

  /** `queryset.update(active=False)`: every matching row is deactivated, every other row is kept as it is. */
  function Deactivate(s: seq<Order>, f: Filter): (r: seq<Order>)
    ensures |r| == |s|
    ensures forall j :: 0 <= j < |s| ==> r[j] == if Matches(f, s[j]) then s[j].(active := false) else s[j]
  {
    if s == [] then []
    else [if Matches(f, s[0]) then s[0].(active := false) else s[0]] + Deactivate(s[1..], f)
  }

  /** A queryset is empty exactly when no row matches. */
  lemma {:induction false} CountZero(s: seq<Order>, f: Filter)
    ensures Count(s, f) == 0 <==> forall j :: 0 <= j < |s| ==> !Matches(f, s[j])
  {
    if s != [] {
      CountZero(s[1..], f);
      assert forall j :: 1 <= j < |s| ==> s[1..][j - 1] == s[j];
    }
  }

  /** Two different matching rows make the count at least two. */
  lemma {:induction false} CountTwo(s: seq<Order>, f: Filter, i: nat, j: nat)
    requires i < j < |s| && Matches(f, s[i]) && Matches(f, s[j])
    ensures Count(s, f) >= 2
  {
    if i == 0 {
      CountZero(s[1..], f);
      assert s[1..][j - 1] == s[j];
    } else {
      CountTwo(s[1..], f, i - 1, j - 1);
    }
  }

  /** When the count is one, `first()` is the only matching row. */
  lemma CountOne(s: seq<Order>, f: Filter, j: nat)
    requires Count(s, f) == 1 && j < |s| && Matches(f, s[j])
    ensures j == First(s, f)
  {
    var k := First(s, f);
    if k < j {
      CountTwo(s, f, k, j);
    }
  }

  /**
   The two querysets of `new_or_get` split the cart's active rows: a row open
   for the pair is never stale for it, and an active row of the cart whose
   billing profile is NULL is stale for every non-NULL profile, because
   `exclude` keeps NULL rows.
   */
  lemma FiltersOfNewOrGet(bp: Option<ProfileId>, cart: CartId, o: Order)
    ensures Matches(OpenFor(bp, cart), o) ==> !Matches(StaleFor(bp, cart), o)
    ensures bp.Some? && o.billingProfile.None? && o.cart == Some(cart) && o.active ==> Matches(StaleFor(bp, cart), o)
    ensures Matches(OpenFor(bp, cart), o) || Matches(StaleFor(bp, cart), o) ==> Matches(ForCart(cart), o)
  {
  }

  /** Exactly one matching row gives a count of one. */
  lemma {:induction false} CountExactlyOne(s: seq<Order>, f: Filter, k: nat)
    requires k < |s| && Matches(f, s[k])
    requires forall j :: 0 <= j < |s| && j != k ==> !Matches(f, s[j])
    ensures Count(s, f) == 1
  {
    var t := s[1..];
    assert forall j :: 0 <= j < |t| ==> t[j] == s[j + 1];
    if k == 0 {
      CountZero(t, f);
    } else {
      CountExactlyOne(t, f, k - 1);
    }
  }

  /** `count() == 1` holds exactly when one row matches and no other does. */
  lemma CountIsOne(s: seq<Order>, f: Filter)
    ensures Count(s, f) == 1 <==>
      exists k :: 0 <= k < |s| && Matches(f, s[k]) && forall j :: 0 <= j < |s| && Matches(f, s[j]) ==> j == k
  {
    if Count(s, f) == 1 {
      var k := First(s, f);
      forall j | 0 <= j < |s| && Matches(f, s[j]) ensures j == k {
        CountOne(s, f, j);
      }
    }
    if k :| 0 <= k < |s| && Matches(f, s[k]) && forall j :: 0 <= j < |s| && Matches(f, s[j]) ==> j == k {
      CountExactlyOne(s, f, k);
    }
  }

  /** Appending a row adds one to the count exactly when the new row matches. */
  lemma {:induction false} CountAppend(s: seq<Order>, o: Order, f: Filter)
    ensures Count(s + [o], f) == Count(s, f) + (if Matches(f, o) then 1 else 0)
  {
    if s != [] {
      assert (s + [o])[1..] == s[1..] + [o];
      CountAppend(s[1..], o, f);
    }
  }

  /** Two tables that agree row by row on a filter give it the same count. */
  lemma {:induction false} CountSameMatches(s: seq<Order>, r: seq<Order>, f: Filter)
    requires |r| == |s|
    requires forall j :: 0 <= j < |s| ==> (Matches(f, r[j]) <==> Matches(f, s[j]))
    ensures Count(r, f) == Count(s, f)
  {
    if s != [] {
      assert forall j :: 1 <= j < |s| ==> r[1..][j - 1] == r[j] && s[1..][j - 1] == s[j];
      CountSameMatches(s[1..], r[1..], f);
    }
  }

  /** An update over an empty queryset leaves the table as it is. */
  lemma DeactivateNothing(s: seq<Order>, f: Filter)
    requires Count(s, f) == 0
    ensures Deactivate(s, f) == s
  {
    CountZero(s, f);
  }

  /** After the update no row is stale for the pair any more. */
  lemma StaleCleared(s: seq<Order>, bp: Option<ProfileId>, cart: CartId)
    ensures Count(Deactivate(s, StaleFor(bp, cart)), StaleFor(bp, cart)) == 0
  {
    CountZero(Deactivate(s, StaleFor(bp, cart)), StaleFor(bp, cart));
  }

  /** Deactivating stale rows leaves the open orders of the pair itself untouched. */
  lemma StaleUpdateKeepsOpen(s: seq<Order>, bp: Option<ProfileId>, cart: CartId)
    ensures Count(Deactivate(s, StaleFor(bp, cart)), OpenFor(bp, cart)) == Count(s, OpenFor(bp, cart))
  {
    CountSameMatches(s, Deactivate(s, StaleFor(bp, cart)), OpenFor(bp, cart));
  }
}
