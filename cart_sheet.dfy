/**
 * The bag panel: the shipping rule, the grand total, the free-shipping hint,
 * the per-line quantity and remove controls, and the item-count heading.
 */
module CartSheet {
  import opened Options
  import opened Text
  import opened CartStore

  /** Orders whose subtotal reaches this amount ship free. */
  const FreeShippingThreshold: int := 5000
  /** The flat fee below the threshold. */
  const FlatShippingFee: int := 200

  /** The shipping fee for a subtotal: nothing from the threshold up, the flat fee below it. */
  function ShippingFee(subtotal: int): (fee: int)
    ensures fee == 0 <==> subtotal >= FreeShippingThreshold
    ensures fee == 0 || fee == FlatShippingFee
  {
    if subtotal >= FreeShippingThreshold then 0 else FlatShippingFee
  }

  /** The text of the shipping row. */
  function ShippingText(subtotal: int): (s: string)
    ensures s == "Free" <==> ShippingFee(subtotal) == 0
    ensures ShippingFee(subtotal) != 0 ==> s == "₹" + NatToString(ShippingFee(subtotal))
  {
    if subtotal >= FreeShippingThreshold then "Free"
    else
      assert NatToString(2) == "2" && NatToString(20) == "20" && NatToString(200) == "200";
      "₹200"
  }

  /** The total row: the subtotal, plus the flat fee below the threshold. */
  function GrandTotal(subtotal: int): (t: int)
    ensures t == subtotal + ShippingFee(subtotal)
    ensures subtotal <= t <= subtotal + FlatShippingFee
  {
    if subtotal >= FreeShippingThreshold then subtotal else subtotal + FlatShippingFee
  }

  /**
   * The "add X more for free shipping" hint: shown only below the threshold,
   * where X is the least amount whose addition makes shipping free.
   */
  function FreeShippingGap(subtotal: int): (gap: Option<int>)
    ensures gap.Some? <==> ShippingFee(subtotal) != 0
    ensures gap.Some? ==> gap.value > 0 && ShippingFee(subtotal + gap.value) == 0
    ensures gap.Some? ==> forall t | subtotal <= t < subtotal + gap.value :: ShippingFee(t) == FlatShippingFee
  {
    if subtotal < FreeShippingThreshold then Some(FreeShippingThreshold - subtotal) else None
  }

  /** The quantity the minus button asks for: one less, but never below 1. */
  function DecrementRequest(q: int): (r: int)
    ensures r >= 1
    ensures q >= 2 ==> r == q - 1
    ensures q <= 2 ==> r == 1
  {
    if q - 1 > 1 then q - 1 else 1
  }

  /** The quantity the plus button asks for. */
  function IncrementRequest(q: int): (r: int)
    ensures r > q
  {
    q + 1
  }

  /** The minus button undoes the plus button on any quantity of at least 1, and the other way round from 2 up. */
  lemma IncrementDecrementInverse(q: int)
    ensures q >= 1 ==> DecrementRequest(IncrementRequest(q)) == q
    ensures q >= 2 ==> IncrementRequest(DecrementRequest(q)) == q
  {
  }

  /** The heading above the lines: "Empty", "1 item" or "N items". */
  function CountLabel(count: int): (s: string)
    ensures count <= 0 <==> s == "Empty"
    ensures count == 1 ==> s == "1 item"
    ensures count > 1 ==> |s| > 6 && s[|s| - 6..] == " items"
    ensures count > 1 ==> s == NatToString(count) + " items"
  {
    if count > 0 then
      var digits := NatToString(count);
      var heading := digits + " item" + (if count > 1 then "s" else "");
      assert heading[|digits|..] == " item" + (if count > 1 then "s" else "");
      assert count == 1 ==> digits == "1";
      heading
    else "Empty"
  }

  /** The count a heading shows: the inverse of CountLabel on non-negative counts. */
  function ParseCountLabel(s: string): (count: int) {
    if s == "Empty" then 0 else ParseDigits(s[..LeadingDigits(s)])
  }

  /** How many decimal digits `s` starts with. */
  function LeadingDigits(s: string): (n: nat)
    ensures n <= |s|
    ensures forall i | 0 <= i < n :: IsDigit(s[i])
    ensures n < |s| ==> !IsDigit(s[n])
  {
    if s != [] && IsDigit(s[0]) then 1 + LeadingDigits(s[1..]) else 0
  }

  lemma {:induction false} LeadingDigitsOfNumber(digits: string, rest: string)
    requires forall i | 0 <= i < |digits| :: IsDigit(digits[i])
    requires rest != [] && !IsDigit(rest[0])
    ensures LeadingDigits(digits + rest) == |digits|
  {
    if digits != [] {
      assert (digits + rest)[1..] == digits[1..] + rest;
      LeadingDigitsOfNumber(digits[1..], rest);
    }
  }

  /** The heading gives back the count it was made from, so different counts never share a heading. */
  lemma CountLabelRoundTrip(count: nat)
    ensures ParseCountLabel(CountLabel(count)) == count
  {
    if count > 0 {
      var digits := NatToString(count);
      var rest := " item" + (if count > 1 then "s" else "");
      var s := CountLabel(count);
      assert s == digits + rest;
      LeadingDigitsOfNumber(digits, rest);
      assert s[..|digits|] == digits;
      ParseNatToString(count);
    }
  }

  // ---------------------------------------------------------------------------
  // The controls on one line: each passes the line's own full key.

  /** The minus button of line `i`. */
  function DecrementLine(items: seq<CartItem>, i: nat): (r: seq<CartItem>)
    requires i < |items|
    ensures |r| == |items| && r[i].quantity >= 1
    ensures items[i].quantity >= 2 ==> r[i].quantity == items[i].quantity - 1
    ensures forall j | 0 <= j < |items| :: r[j].Key() == items[j].Key()
  {
    Updated(items, items[i].Key(), DecrementRequest(items[i].quantity))
  }

  /** The plus button of line `i`. */
  function IncrementLine(items: seq<CartItem>, i: nat): (r: seq<CartItem>)
    requires i < |items|
    ensures |r| == |items| && r[i].quantity > items[i].quantity
    ensures forall j | 0 <= j < |items| :: r[j].Key() == items[j].Key()
  {
    Updated(items, items[i].Key(), IncrementRequest(items[i].quantity))
  }

  /** The remove button of line `i`. */
  function RemoveLine(items: seq<CartItem>, i: nat): (r: seq<CartItem>)
    requires i < |items|
    ensures |r| <= |items|
    ensures forall x | x in r :: x in items && x.Key() != items[i].Key()
  {
    RemovedMembers(items, items[i].Key());
    Removed(items, items[i].Key())
  }

  /** In a bag with unique keys the controls of line `i` change that line only. */
  lemma LineControlsTouchOnlyTheirLine(items: seq<CartItem>, i: nat)
    requires UniqueKeys(items)
    requires i < |items|
    ensures DecrementLine(items, i) == items[i := items[i].(quantity := DecrementRequest(items[i].quantity))]
    ensures IncrementLine(items, i) == items[i := items[i].(quantity := items[i].quantity + 1)]
    ensures RemoveLine(items, i) == items[..i] + items[i + 1..]
  {
    UpdateAt(items, i, DecrementRequest(items[i].quantity));
    UpdateAt(items, i, IncrementRequest(items[i].quantity));
    RemoveAt(items, i);
  }

  /** The minus and plus buttons never take a quantity below 1. */
  lemma ControlsKeepQuantitiesPositive(items: seq<CartItem>, i: nat)
    requires UniqueKeys(items)
    requires i < |items|
    requires forall j | 0 <= j < |items| :: items[j].quantity >= 1
    ensures forall j | 0 <= j < |items| :: DecrementLine(items, i)[j].quantity >= 1
    ensures forall j | 0 <= j < |items| :: IncrementLine(items, i)[j].quantity >= 1
  {
    LineControlsTouchOnlyTheirLine(items, i);
  }

  /** The minus button lowers the count by one unless the line is already at 1. */
  lemma DecrementLineCount(items: seq<CartItem>, i: nat)
    requires UniqueKeys(items)
    requires i < |items|
    requires items[i].quantity >= 1
    ensures Count(DecrementLine(items, i)) == Count(items) - (if items[i].quantity > 1 then 1 else 0)
  {
    UpdateAt(items, i, DecrementRequest(items[i].quantity));
  }
}
