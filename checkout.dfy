/**
 * The checkout screen (src/screens/CheckoutScreen.tsx): the subtotal of the
 * cart, the SAVE10 coupon and the total, and the screen's state: the step
 * (delivery, then payment), the chosen payment option and address, and the
 * coupon as typed and as applied.
 */
module CheckoutScreen {
  import opened Wrappers
  import opened JsText
  import opened MockData
  import opened BookmarkContext
  import opened Prices
  import opened Alerts
  import CartScreen

  // --------------------------------------------------------------- amounts

  /** A cart item as the checkout reads it: its price, and `qty` when the item holds a number there. */
  datatype CheckoutLine = CheckoutLine(price: string, qty: Option<real>)

  /** `typeof item.qty === 'number' ? item.qty : 1`. */
  function LineQuantity(line: CheckoutLine): real {
    line.qty.GetOr(1.0)
  }

  /** The checkout `subtotal`: the `reduce` of price times quantity, NaN (`None`) once a price is NaN. */
  function Subtotal(lines: seq<CheckoutLine>): Option<real> {
    if lines == [] then Some(0.0)
    else
      var last := lines[|lines| - 1];
      CartScreen.AddLine(Subtotal(lines[..|lines| - 1]), PriceValue(last.price), LineQuantity(last))
  }

  /**
   * The lines of the cart's packages. A package has no `qty` field, and the
   * screens that fill the cart never add one, so every quantity reads as 1.
   */
  function Lines(items: seq<BookmarkedPackage>): (r: seq<CheckoutLine>)
    ensures |r| == |items|
    ensures forall i | 0 <= i < |items| :: r[i].price == items[i].price && r[i].qty.None?
  {
    seq(|items|, i requires 0 <= i < |items| => CheckoutLine(items[i].price, None))
  }

  /**
   * The checkout sums the cart at one of each item, whatever quantities the
   * cart screen shows: its subtotal is the cart's subtotal with no quantities.
   */
  lemma {:induction false} CheckoutIgnoresCartQuantities(items: seq<BookmarkedPackage>)
    ensures Subtotal(Lines(items)) == CartScreen.Subtotal(items, map[])
  {
    if items != [] {
      var init := items[..|items| - 1];
      assert Lines(items)[..|items| - 1] == Lines(init);
      CheckoutIgnoresCartQuantities(init);
    }
  }

  /** The only coupon the screen knows. */
  const Save10: string := "SAVE10"

  /** `appliedCoupon === 'SAVE10' ? subtotal * 0.1 : 0`. */
  function Discount(subtotal: Option<real>, appliedCoupon: string): (r: Option<real>)
    ensures appliedCoupon != Save10 ==> r == Some(0.0)
    ensures appliedCoupon == Save10 ==> (r.None? <==> subtotal.None?)
    ensures appliedCoupon == Save10 && subtotal.Some? ==> r == Some(subtotal.value / 10.0)
    ensures subtotal.Some? && subtotal.value != 0.0 ==>
              (r == Some(subtotal.value / 10.0) <==> appliedCoupon == Save10)
  {
    if appliedCoupon == Save10 then
      if subtotal.Some? then Some(subtotal.value / 10.0) else None
    else Some(0.0)
  }

  /** `subtotal - discount`. */
  function Total(subtotal: Option<real>, appliedCoupon: string): Option<real> {
    var discount := Discount(subtotal, appliedCoupon);
    if subtotal.Some? && discount.Some? then Some(subtotal.value - discount.value) else None
  }

  /**
   * For a subtotal that is a number and not negative, the total is nine
   * tenths of it under SAVE10 and all of it otherwise, so never more than it.
   */
  lemma TotalBounds(subtotal: real, appliedCoupon: string)
    requires subtotal >= 0.0
    ensures Total(Some(subtotal), appliedCoupon).Some?
    ensures var t := Total(Some(subtotal), appliedCoupon).value;
            0.0 <= t <= subtotal &&
            t == (if appliedCoupon == Save10 then subtotal * 9.0 / 10.0 else subtotal)
  {
  }

  /** The amount the bottom bar shows next to "Total:". */
  function BottomBarAmount(subtotal: Option<real>, appliedCoupon: string): Option<real> {
    subtotal
  }

  /** The bottom bar shows the subtotal: with SAVE10 applied to a positive subtotal it differs from the total. */
  lemma BottomBarShowsSubtotal(subtotal: real, appliedCoupon: string)
    requires subtotal > 0.0
    ensures BottomBarAmount(Some(subtotal), appliedCoupon) == Some(subtotal)
    ensures BottomBarAmount(Some(subtotal), appliedCoupon) == Total(Some(subtotal), appliedCoupon) <==>
            appliedCoupon != Save10
  {
  }

  // ---------------------------------------------------------------- coupon

  /** `coupon.trim().toUpperCase()`. */
  function NormalizeCoupon(coupon: string): string {
    ToUpper(Trim(coupon))
  }

  /** Upper-casing keeps a trimmed string trimmed (whitespace is not a letter). */
  lemma ToUpperKeepsTrimmed(s: string)
    requires IsTrimmed(s)
    ensures IsTrimmed(ToUpper(s))
  {
  }

  lemma ToUpperIdempotent(s: string)
    ensures ToUpper(ToUpper(s)) == ToUpper(s)
  {
    forall i | 0 <= i < |s| ensures UpperChar(UpperChar(s[i])) == UpperChar(s[i]) { }
  }

  /** Applying an applied coupon again changes nothing. */
  lemma NormalizeCouponIdempotent(coupon: string)
    ensures NormalizeCoupon(NormalizeCoupon(coupon)) == NormalizeCoupon(coupon)
  {
    var t := Trim(coupon);
    TrimIsTrimmed(coupon);
    ToUpperKeepsTrimmed(t);
    TrimOfTrimmed(ToUpper(t));
    ToUpperIdempotent(t);
  }

  /** A typed " save10 " applies as SAVE10. */
  lemma SpacedLowerCaseCouponApplies()
    ensures NormalizeCoupon(" save10 ") == Save10
  {
    var s := " save10 ";
    assert TrimStart(s) == "save10 " by {
      assert s[1..] == "save10 ";
    }
    assert TrimEnd("save10 ") == "save10" by {
      assert "save10 "[..6] == "save10";
    }
  }

  // ----------------------------------------------------------------- state

  /** The keys of `paymentOptions`. */
  const PaymentKeys: seq<string> := ["wallet", "netbanking", "card", "cod"]

  /** The alert of the PROCEED button. */
  const OrderPlaced: Alert := Alert("Order Placed", "Your order has been placed!")

  /** The checkout screen's state. */
  class Checkout {
    var step: int                          // 0: delivery, 1: payment
    var selectedPayment: string
    var selectedAddress: Option<SavedAddress>
    var addressModalVisible: bool
    var coupon: string
    var appliedCoupon: string

    /** The step is 0 or 1, and the applied coupon is a normalised one. */
    ghost predicate Valid()
      reads this
    {
      (step == 0 || step == 1) && NormalizeCoupon(appliedCoupon) == appliedCoupon
    }

    /** The screen opens at the delivery step, with the first saved address if there is one. */
    constructor (addresses: seq<SavedAddress>)
      ensures Valid()
      ensures step == 0 && selectedPayment == "wallet" && !addressModalVisible
      ensures coupon == "" && appliedCoupon == ""
      ensures addresses == [] ==> selectedAddress == None
      ensures addresses != [] ==> selectedAddress == Some(addresses[0])
    {
      step := 0;
      selectedPayment := "wallet";
      selectedAddress := if addresses == [] then None else Some(addresses[0]);
      addressModalVisible := false;
      coupon := "";
      appliedCoupon := "";
    }

    /** Typing in the coupon box. */
    method SetCoupon(text: string)
      modifies this`coupon
      ensures coupon == text
    {
      coupon := text;
    }

    /** The Apply button. */
    method ApplyCoupon()
      requires Valid()
      modifies this`appliedCoupon
      ensures Valid()
      ensures appliedCoupon == NormalizeCoupon(coupon)
    {
      NormalizeCouponIdempotent(coupon);
      appliedCoupon := NormalizeCoupon(coupon);
    }

    /** The Change button opens the address list. */
    method OpenAddressModal()
      modifies this`addressModalVisible
      ensures addressModalVisible
    {
      addressModalVisible := true;
    }

    /** Closing the address list without choosing. */
    method CloseAddressModal()
      modifies this`addressModalVisible
      ensures !addressModalVisible
    {
      addressModalVisible := false;
    }

    /** Choosing an address in the list selects it and closes the list. */
    method SelectAddress(address: SavedAddress)
      modifies this`selectedAddress, this`addressModalVisible
      ensures selectedAddress == Some(address) && !addressModalVisible
    {
      selectedAddress := Some(address);
      addressModalVisible := false;
    }

    /** Choosing a payment option. */
    method SelectPayment(key: string)
      modifies this`selectedPayment
      ensures selectedPayment == key
    {
      selectedPayment := key;
    }

    /**
     * The bottom bar's button: CONFIRM at the delivery step moves to the
     * payment step; PROCEED at the payment step only raises the alert. The
     * step never goes back.
     */
    method PressBottomButton() returns (alert: Option<Alert>)
      requires Valid()
      modifies this`step
      ensures Valid()
      ensures old(step) == 0 ==> step == 1 && alert == None
      ensures old(step) == 1 ==> step == 1 && alert == Some(OrderPlaced)
    {
      if step == 0 {
        step := 1;
        alert := None;
      } else {
        alert := Some(OrderPlaced);
      }
    }
  }
}
