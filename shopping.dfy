/** The order-summary arithmetic of the shopping-cart page: the per-line amount,
    the subtotal fold, the shipping and discount lookups and the grand total,
    with the two rendering branches (empty cart / summary) they feed.
    Amounts are exact reals; the page's `toFixed(2)` formatting is not modelled. */
module ShoppingPage {

  datatype Option<T> = None | Some(value: T)

  /** The two fields of a cart line that enter the arithmetic. */
  datatype LineItem = LineItem(price: real, quantity: int)

  /** The four memoised values the summary panel shows. */
  datatype Summary = Summary(subtotal: real, shipping: real, discount: real, total: real)

  const InitialShippingOption: string := "Standard Delivery"
  const InitialDiscountCode: string := ""
  const ExpressOption: string := "Express Delivery"
  const DiscountCode: string := "DISCOUNT10"
  const StandardCost: real := 5.0
  const ExpressCost: real := 10.0
  const DiscountAmount: real := 10.0

  // ---------------------------------------------------------------------------
  // Line amounts and the subtotal

  /** The amount shown beside one cart line: unit price times quantity. */
  function LineAmount(item: LineItem): real
  {
    item.price * item.quantity as real
  }

  /** The amounts of all lines, in cart order. */
  function LineAmounts(items: seq<LineItem>): (amounts: seq<real>)
    ensures |amounts| == |items|
    ensures forall i :: 0 <= i < |items| ==> amounts[i] == items[i].price * items[i].quantity as real
  {
    seq(|items|, i requires 0 <= i < |items| => LineAmount(items[i]))
  }

  /** The fold `reduce((total, item) => total + item.price * item.quantity, acc)`:
      the accumulator is threaded from the first line to the last. */
  function FoldSubtotal(acc: real, items: seq<LineItem>): real
    decreases items
  {
    if items == [] then acc else FoldSubtotal(acc + LineAmount(items[0]), items[1..])
  }

  /** The subtotal memo: the fold started at 0. */
  function Subtotal(items: seq<LineItem>): real
  {
    FoldSubtotal(0.0, items)
  }

  /** Reference definition: the plain sum of a sequence of amounts. */
  function Sum(xs: seq<real>): real
  {
    if xs == [] then 0.0 else xs[0] + Sum(xs[1..])
  }

  /** The fold adds its starting value to the sum of the line amounts. */
  lemma {:induction false} FoldIsAccPlusSum(acc: real, items: seq<LineItem>)
    ensures FoldSubtotal(acc, items) == acc + Sum(LineAmounts(items))
    decreases items
  {
    if items != [] {
      FoldIsAccPlusSum(acc + LineAmount(items[0]), items[1..]);
      assert LineAmounts(items)[1..] == LineAmounts(items[1..]);
    }
  }

  /** The subtotal shown in the summary is the sum of the line amounts shown in the list. */
  lemma SubtotalIsSumOfLineAmounts(items: seq<LineItem>)
    ensures Subtotal(items) == Sum(LineAmounts(items))
  {
    FoldIsAccPlusSum(0.0, items);
  }

  /** An empty cart has subtotal 0. */
  lemma SubtotalOfEmpty()
    ensures Subtotal([]) == 0.0
  {
  }

  /** Appending a line to the fold adds exactly that line's amount. */
  lemma {:induction false} FoldAppend(acc: real, items: seq<LineItem>, item: LineItem)
    ensures FoldSubtotal(acc, items + [item]) == FoldSubtotal(acc, items) + LineAmount(item)
    decreases items
  {
    if items != [] {
      assert (items + [item])[1..] == items[1..] + [item];
      FoldAppend(acc + LineAmount(items[0]), items[1..], item);
    } else {
      assert [item][1..] == [];
    }
  }

  /** Appending a line to the cart raises the subtotal by exactly price * quantity. */
  lemma SubtotalAppend(items: seq<LineItem>, item: LineItem)
    ensures Subtotal(items + [item]) == Subtotal(items) + item.price * item.quantity as real
  {
    FoldAppend(0.0, items, item);
  }

  /** Every line has a non-negative price and quantity. */
  predicate NonNegativeLines(items: seq<LineItem>)
  {
    forall i :: 0 <= i < |items| ==> items[i].price >= 0.0 && items[i].quantity >= 0
  }

  lemma {:induction false} SumNonNegative(xs: seq<real>)
    requires forall i :: 0 <= i < |xs| ==> xs[i] >= 0.0
    ensures Sum(xs) >= 0.0
  {
    if xs != [] {
      SumNonNegative(xs[1..]);
    }
  }

  /** With non-negative prices and quantities the subtotal is non-negative. */
  lemma SubtotalNonNegative(items: seq<LineItem>)
    requires NonNegativeLines(items)
    ensures Subtotal(items) >= 0.0
  {
    SubtotalIsSumOfLineAmounts(items);
    var amounts := LineAmounts(items);
    forall i | 0 <= i < |amounts|
      ensures amounts[i] >= 0.0
    {
      var p, q := items[i].price, items[i].quantity as real;
      assert p >= 0.0 && q >= 0.0;
      assert p * q >= 0.0;
    }
    SumNonNegative(amounts);
  }

  // ---------------------------------------------------------------------------
  // Shipping, discount and total

  /** The shipping memo: 10 exactly for the string "Express Delivery", otherwise 5. */
  function ShippingCost(option: string): (cost: real)
    ensures cost == ExpressCost <==> option == ExpressOption
    ensures cost == StandardCost <==> option != ExpressOption
  {
    if option == ExpressOption then ExpressCost else StandardCost
  }

  /** The discount memo: 10 exactly for the code "DISCOUNT10" (case-sensitive), otherwise 0. */
  function Discount(code: string): (amount: real)
    ensures amount == DiscountAmount <==> code == DiscountCode
    ensures amount == 0.0 <==> code != DiscountCode
  {
    if code == DiscountCode then DiscountAmount else 0.0
  }

  /** The total memo before formatting: no clamping at zero. */
  function Total(subtotal: real, shipping: real, discount: real): real
  {
    subtotal + shipping - discount
  }

  /** The page's initial state: standard shipping and no discount. */
  lemma InitialStateCharges()
    ensures ShippingCost(InitialShippingOption) == StandardCost
    ensures Discount(InitialDiscountCode) == 0.0
  {
  }

  /** The discount match is exact: a code differing only in letter case gets nothing. */
  lemma DiscountIsCaseSensitive()
    ensures Discount("discount10") == 0.0
    ensures Discount("DISCOUNT10 ") == 0.0
  {
  }

  /** For any shipping and discount the page can compute, the total stays within
      [subtotal - 5, subtotal + 10]. */
  lemma TotalBounds(items: seq<LineItem>, option: string, code: string)
    ensures var t := Total(Subtotal(items), ShippingCost(option), Discount(code));
            Subtotal(items) - 5.0 <= t <= Subtotal(items) + 10.0
  {
  }

  /** All four summary values for a cart, shipping option and discount code. */
  function OrderSummary(items: seq<LineItem>, option: string, code: string): (s: Summary)
    ensures s.subtotal == Sum(LineAmounts(items))
    ensures s.shipping in {StandardCost, ExpressCost} && s.discount in {0.0, DiscountAmount}
    ensures s.shipping == ExpressCost <==> option == ExpressOption
    ensures s.discount == DiscountAmount <==> code == DiscountCode
    ensures s.total == s.subtotal + s.shipping - s.discount
    ensures s.subtotal - 5.0 <= s.total <= s.subtotal + 10.0
  {
    SubtotalIsSumOfLineAmounts(items);
    var subtotal := Subtotal(items);
    var shipping := ShippingCost(option);
    var discount := Discount(code);
    Summary(subtotal, shipping, discount, Total(subtotal, shipping, discount))
  }

  /** The total is not clamped: a non-empty cart of a free item with the discount code
      and standard shipping totals -5. */
  lemma TotalCanBeNegative()
    ensures var items := [LineItem(0.0, 1)];
            NonNegativeLines(items) && |items| > 0 &&
            OrderSummary(items, InitialShippingOption, DiscountCode).total == -5.0
  {
  }

  /** Worked example: lines (10 x 2) and (5 x 3) give subtotal 35, total 40 with
      standard shipping, and 30 with the discount code. */
  lemma WorkedExample()
    ensures var items := [LineItem(10.0, 2), LineItem(5.0, 3)];
            && OrderSummary(items, InitialShippingOption, InitialDiscountCode) == Summary(35.0, 5.0, 0.0, 40.0)
            && OrderSummary(items, InitialShippingOption, DiscountCode) == Summary(35.0, 5.0, 10.0, 30.0)
  {
  }

  // ---------------------------------------------------------------------------
  // The two rendering branches

  /** "Your cart is empty." is rendered exactly when the cart has no lines. */
  predicate ShowsEmptyMessage(items: seq<LineItem>)
  {
    |items| == 0
  }

  /** The order-summary panel is rendered exactly when the cart has lines. */
  predicate ShowsSummary(items: seq<LineItem>)
  {
    |items| > 0
  }

  /** Exactly one of the two branches is rendered for every cart. */
  lemma ExactlyOneBranch(items: seq<LineItem>)
    ensures ShowsEmptyMessage(items) <==> !ShowsSummary(items)
  {
  }

  // ---------------------------------------------------------------------------
  // The shipping <select> and the values it can produce

  /** An <option> element: its text and its `value` attribute, if any. */
  datatype OptionElement = OptionElement(text: string, valueAttr: Option<string>)

  /** The string an HTML <select> reports for a chosen option: the `value` attribute
      when there is one, the option's text otherwise. */
  function SelectedValue(o: OptionElement): (v: string)
    ensures o.valueAttr.None? ==> v == o.text
    ensures o.valueAttr.Some? ==> v == o.valueAttr.value
  {
    match o.valueAttr
    case Some(v) => v
    case None => o.text
  }

  /** The select as the page renders it: two options, neither with a `value` attribute. */
  const ShippingSelect: seq<OptionElement> :=
    [OptionElement("Standard Delivery - $5.00", None), OptionElement("Express Delivery - $10.00", None)]

  /** The price each option's label advertises. */
  const AdvertisedCosts: seq<real> := [StandardCost, ExpressCost]

  /** The select with the `value` attributes the shipping memo compares against. */
  const IntendedShippingSelect: seq<OptionElement> :=
    [OptionElement("Standard Delivery - $5.00", Some(InitialShippingOption)),
     OptionElement("Express Delivery - $10.00", Some(ExpressOption))]

  /** A shipping-option state the page can reach: the initial one or one the select reports. */
  predicate ReachableShippingOption(select: seq<OptionElement>, option: string)
  {
    option == InitialShippingOption || exists i :: 0 <= i < |select| && option == SelectedValue(select[i])
  }

  /** As written, every reachable shipping option costs 5, including the Express choice
      whose label advertises 10. */
  lemma EveryReachableOptionCostsStandard(option: string)
    requires ReachableShippingOption(ShippingSelect, option)
    ensures ShippingCost(option) == StandardCost
  {
  }

  /** As written, choosing the Express option is charged 5 although its label says 10. */
  lemma ExpressChoiceUndercharged()
    ensures ShippingCost(SelectedValue(ShippingSelect[1])) == StandardCost
    ensures AdvertisedCosts[1] == ExpressCost
  {
  }

  /** With the intended `value` attributes every option is charged what its label says. */
  lemma IntendedSelectChargesAdvertised(i: int)
    requires 0 <= i < |IntendedShippingSelect|
    ensures ShippingCost(SelectedValue(IntendedShippingSelect[i])) == AdvertisedCosts[i]
  {
  }
}
