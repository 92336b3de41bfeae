/** The frontend's pure helpers: barcode validation, the cart total with its
    defaults for missing fields, and the emptiness test over JavaScript values. */
module Helpers {
  import opened JsValues
  import CartContext

  // ---------------------------------------------------------------------
  // validateBarcode
  // ---------------------------------------------------------------------

  datatype BarcodeCheck = BarcodeCheck(isValid: bool, message: string)

  const RequiredMessage := "Barcode is required"
  const TooShortMessage := "Barcode must be at least 8 characters"
  const TooLongMessage := "Barcode must be no more than 20 characters"
  const NotNumericMessage := "Barcode must contain only numbers"
  const ValidMessage := "Barcode is valid"

  /** `/^\d+$/.test(s)`: one or more ASCII digits and nothing else. */
  predicate IsDigits(s: string) {
    s != [] && forall i :: 0 <= i < |s| ==> '0' <= s[i] <= '9'
  }

  /** A well-formed barcode: once trimmed, 8 to 20 code units long and all ASCII digits. */
  predicate WellFormedBarcode(s: string) {
    8 <= Utf16Length(Trim(s)) <= 20 && IsDigits(Trim(s))
  }

  /** Digits lie in the Basic Multilingual Plane, so their `.length` is their count. */
  lemma DigitsLength(s: string)
    requires IsDigits(s)
    ensures Utf16Length(s) == |s|
  {
    forall i | 0 <= i < |s|
      ensures s[i] as int < 0x10000
    {
      assert '0' <= s[i] <= '9';
    }
  }

  /** validateBarcode: the checks run in a fixed order (present string,
      minimum length, maximum length, digits) and the first that fails
      chooses the message. The lengths are JavaScript's, in UTF-16 code units. */
  function ValidateBarcode(barcode: Value): (r: BarcodeCheck)
    ensures r.isValid <==> barcode.Str? && WellFormedBarcode(barcode.s)
    ensures r.isValid ==> r.message == ValidMessage
    ensures !barcode.Str? || barcode.s == [] ==> r == BarcodeCheck(false, RequiredMessage)
    ensures barcode.Str? && barcode.s != [] && Utf16Length(Trim(barcode.s)) < 8
            ==> r == BarcodeCheck(false, TooShortMessage)
    ensures barcode.Str? && Utf16Length(Trim(barcode.s)) > 20 ==> r == BarcodeCheck(false, TooLongMessage)
    ensures barcode.Str? && 8 <= Utf16Length(Trim(barcode.s)) <= 20 && !IsDigits(Trim(barcode.s))
            ==> r == BarcodeCheck(false, NotNumericMessage)
  {
    if !Truthy(barcode) || !barcode.Str? then BarcodeCheck(false, RequiredMessage)
    else
      var trimmed := Trim(barcode.s);
      if Utf16Length(trimmed) < 8 then BarcodeCheck(false, TooShortMessage)
      else if Utf16Length(trimmed) > 20 then BarcodeCheck(false, TooLongMessage)
      else if !IsDigits(trimmed) then BarcodeCheck(false, NotNumericMessage)
      else BarcodeCheck(true, ValidMessage)
  }

  /** Which barcodes are valid does not depend on how `.length` counts:
      a well-formed barcode is 8 to 20 digit characters once trimmed. */
  lemma WellFormedBarcodeDigits(s: string)
    ensures WellFormedBarcode(s) <==> 8 <= |Trim(s)| <= 20 && IsDigits(Trim(s))
  {
    if IsDigits(Trim(s)) {
      DigitsLength(Trim(s));
    }
  }

  /** Characters outside the Basic Multilingual Plane: none is whitespace or a digit. */
  predicate Astral(s: string) {
    forall i :: 0 <= i < |s| ==> s[i] as int >= 0x10000
  }

  lemma {:induction false} AstralLength(s: string)
    requires Astral(s)
    ensures Utf16Length(s) == 2 * |s|
  {
    if s != [] {
      AstralLength(s[1..]);
    }
  }

  /** On a non-empty string of characters outside the Basic Multilingual Plane,
      each character counts twice towards the limits: 4 to 10 of them pass
      both length checks and are reported as not numeric, and 11 or more are
      reported as too long. */
  lemma ValidateBarcodeAstral(s: string)
    requires s != [] && Astral(s)
    ensures 4 <= |s| <= 10 ==> ValidateBarcode(Str(s)) == BarcodeCheck(false, NotNumericMessage)
    ensures |s| > 10 ==> ValidateBarcode(Str(s)) == BarcodeCheck(false, TooLongMessage)
  {
    assert !IsWhitespace(s[0]) && !IsWhitespace(s[|s| - 1]);
    assert TrimStart(s) == s;
    assert TrimEnd(s) == s;
    AstralLength(s);
    assert !('0' <= s[0] <= '9');
  }

  /** Leading and trailing whitespace never changes the verdict; around a
      non-empty string it changes neither verdict nor message. */
  lemma ValidateBarcodePadded(w1: string, s: string, w2: string)
    requires Blank(w1) && Blank(w2)
    ensures ValidateBarcode(Str(w1 + s + w2)).isValid == ValidateBarcode(Str(s)).isValid
    ensures s != [] ==> ValidateBarcode(Str(w1 + s + w2)) == ValidateBarcode(Str(s))
  {
    TrimPadded(w1, s, w2);
  }

  /** A whitespace-only string is present but too short once trimmed. */
  lemma ValidateBarcodeBlank(s: string)
    requires s != [] && Blank(s)
    ensures ValidateBarcode(Str(s)) == BarcodeCheck(false, TooShortMessage)
  {
    TrimEmptyIffBlank(s);
  }

  // ---------------------------------------------------------------------
  // calculateCartTotal
  // ---------------------------------------------------------------------

  /** A completed call, or the TypeError thrown on reading a field of null or undefined. */
  datatype Completion<T> = Returned(value: T) | ThrewTypeError

  /** `(item.price || 0) * (item.quantity || 1)` */
  function ItemTotal(item: Value): (r: Completion<Number>)
    ensures r.ThrewTypeError? <==> item.Null? || item.Undefined?
  {
    if item.Undefined? || item.Null? then ThrewTypeError
    else
      var price := Or(Get(item, "price"), Num(Finite(0.0)));
      var quantity := Or(Get(item, "quantity"), Num(Finite(1.0)));
      Returned(Mul(ToNumber(price), ToNumber(quantity)))
  }

  /** `items.reduce((total, item) => total + itemTotal(item), 0)`, left to
      right; a callback that throws ends the fold with its error. */
  function Reduce(items: seq<Value>, itemTotal: Value -> Completion<Number>): (r: Completion<Number>)
    ensures r.ThrewTypeError? <==> exists i :: 0 <= i < |items| && itemTotal(items[i]).ThrewTypeError?
  {
    if items == [] then Returned(Finite(0.0))
    else
      match Reduce(items[..|items| - 1], itemTotal)
      case ThrewTypeError => ThrewTypeError
      case Returned(total) =>
        match itemTotal(items[|items| - 1])
        case ThrewTypeError => ThrewTypeError
        case Returned(amount) => Returned(Add(total, amount))
  }

  /** calculateCartTotal */
  function CalculateCartTotal(cartItems: Value): (r: Completion<Number>)
    ensures !cartItems.Arr? ==> r == Returned(Finite(0.0))
    ensures cartItems.Arr? ==> r == Reduce(cartItems.elems, ItemTotal)
  {
    if !cartItems.Arr? || |cartItems.elems| == 0 then Returned(Finite(0.0))
    else Reduce(cartItems.elems, ItemTotal)
  }

  /** A cart line item as the object the screens hold. */
  function ItemValue(item: CartContext.Item): Value {
    Obj(map[
      "barcode" := Str(item.barcode),
      "name" := Str(item.name),
      "price" := Num(Finite(item.price as real)),
      "quantity" := Num(Finite(item.quantity as real))])
  }

  function CartValue(cart: seq<CartContext.Item>): Value {
    Arr(seq(|cart|, i requires 0 <= i < |cart| => ItemValue(cart[i])))
  }

  /** The quantity calculateCartTotal charges: a zero quantity counts as one unit. */
  function ChargedQuantity(q: int): int {
    if q == 0 then 1 else q
  }

  /** Σ price × ChargedQuantity, summed left to right. */
  function ChargedTotal(cart: seq<CartContext.Item>): int {
    if cart == [] then 0
    else ChargedTotal(cart[..|cart| - 1]) + cart[|cart| - 1].price * ChargedQuantity(cart[|cart| - 1].quantity)
  }

  /** The callback charges a cart item its price times its charged quantity. */
  ghost predicate ChargesCartItems(itemTotal: Value -> Completion<Number>) {
    forall item: CartContext.Item {:trigger ItemValue(item)} ::
      itemTotal(ItemValue(item)) == Returned(Finite((item.price * ChargedQuantity(item.quantity)) as real))
  }

  /** The callback throws exactly on null and undefined. */
  ghost predicate ThrowsOnNullish(itemTotal: Value -> Completion<Number>) {
    forall v :: itemTotal(v).ThrewTypeError? <==> v.Null? || v.Undefined?
  }

  lemma ItemValueTotal(item: CartContext.Item)
    ensures ItemTotal(ItemValue(item)) == Returned(Finite((item.price * ChargedQuantity(item.quantity)) as real))
  {
    var v := ItemValue(item);
    var p := item.price as real;
    var q := ChargedQuantity(item.quantity) as real;
    assert Get(v, "price") == Num(Finite(p));
    assert Get(v, "quantity") == Num(Finite(item.quantity as real));
    assert ToNumber(Or(Get(v, "price"), Num(Finite(0.0)))) == Finite(p);
    assert ToNumber(Or(Get(v, "quantity"), Num(Finite(1.0)))) == Finite(q);
    assert ItemTotal(v) == Returned(Mul(Finite(p), Finite(q)));
    assert (item.price * ChargedQuantity(item.quantity)) as real == p * q;
    assert Mul(Finite(p), Finite(q)) == Finite(p * q);
  }

  lemma ItemTotalCharges()
    ensures ChargesCartItems(ItemTotal)
  {
    forall item: CartContext.Item {
      ItemValueTotal(item);
    }
  }

  lemma ItemTotalThrows()
    ensures ThrowsOnNullish(ItemTotal)
  {
  }

  lemma {:induction false} ReduceOfCart(cart: seq<CartContext.Item>, itemTotal: Value -> Completion<Number>)
    requires ChargesCartItems(itemTotal)
    ensures Reduce(CartValue(cart).elems, itemTotal) == Returned(Finite(ChargedTotal(cart) as real))
  {
    var elems := CartValue(cart).elems;
    if cart != [] {
      var front := cart[..|cart| - 1];
      var last := cart[|cart| - 1];
      assert elems[..|elems| - 1] == CartValue(front).elems;
      assert elems[|elems| - 1] == ItemValue(last);
      ReduceOfCart(front, itemTotal);
    }
  }

  /** calculateCartTotal over the cart's items charges price × quantity per
      item, with a zero quantity counted as one unit. */
  lemma CalculateCartTotalOfCart(cart: seq<CartContext.Item>)
    ensures CalculateCartTotal(CartValue(cart)) == Returned(Finite(ChargedTotal(cart) as real))
  {
    ItemTotalCharges();
    ReduceOfCart(cart, ItemTotal);
  }

  /** ChargedTotal agrees with the screens' price sum whenever no quantity is zero. */
  lemma {:induction false} ChargedTotalIsPriceSum(cart: seq<CartContext.Item>)
    requires CartContext.QuantitiesPositive(cart)
    ensures ChargedTotal(cart) == CartContext.PriceSum(cart)
  {
    if cart != [] {
      var front := cart[..|cart| - 1];
      var last := cart[|cart| - 1];
      ChargedTotalIsPriceSum(front);
      CartContext.TotalsAppend(front, last);
      assert front + [last] == cart;
    }
  }

  /** On a cart that keeps its invariant, calculateCartTotal is the cart screen's total price. */
  lemma CalculateCartTotalIsTotalPrice(cart: seq<CartContext.Item>)
    requires CartContext.QuantitiesPositive(cart)
    ensures CalculateCartTotal(CartValue(cart)) == Returned(Finite(CartContext.PriceSum(cart) as real))
  {
    CalculateCartTotalOfCart(cart);
    ChargedTotalIsPriceSum(cart);
  }

  /** Some item is null or undefined. */
  predicate HasNullish(items: seq<Value>) {
    exists i :: 0 <= i < |items| && (items[i].Null? || items[i].Undefined?)
  }

  lemma {:induction false} ReduceThrowsIff(items: seq<Value>, itemTotal: Value -> Completion<Number>)
    requires ThrowsOnNullish(itemTotal)
    ensures Reduce(items, itemTotal).ThrewTypeError? <==> HasNullish(items)
  {
    if items != [] {
      var front := items[..|items| - 1];
      ReduceThrowsIff(front, itemTotal);
      if HasNullish(front) {
        var i :| 0 <= i < |front| && (front[i].Null? || front[i].Undefined?);
        assert items[i] == front[i];
      }
      if HasNullish(items) {
        var i :| 0 <= i < |items| && (items[i].Null? || items[i].Undefined?);
        if i < |front| {
          assert front[i] == items[i];
        }
      }
    }
  }

  /** calculateCartTotal throws exactly when the array holds a null or undefined item. */
  lemma CalculateCartTotalThrowsIff(cartItems: Value)
    ensures CalculateCartTotal(cartItems).ThrewTypeError? <==> cartItems.Arr? && HasNullish(cartItems.elems)
    ensures !cartItems.Arr? || cartItems.elems == [] ==> CalculateCartTotal(cartItems) == Returned(Finite(0.0))
  {
    if cartItems.Arr? {
      ItemTotalThrows();
      ReduceThrowsIff(cartItems.elems, ItemTotal);
    }
  }

  /** An item with a numeric price and no quantity field counts as one unit. */
  lemma MissingQuantityCountsOnce(price: real, rest: map<string, Value>)
    requires "quantity" !in rest
    ensures ItemTotal(Obj(rest["price" := Num(Finite(price))])) == Returned(Finite(price))
  {
    var v := Obj(rest["price" := Num(Finite(price))]);
    assert Get(v, "price") == Num(Finite(price));
    assert Get(v, "quantity") == Undefined;
    assert ToNumber(Or(Get(v, "price"), Num(Finite(0.0)))) == Finite(price);
    assert ToNumber(Or(Get(v, "quantity"), Num(Finite(1.0)))) == Finite(1.0);
    assert ItemTotal(v) == Returned(Mul(Finite(price), Finite(1.0)));
  }

  /** An item whose price is missing or falsy is charged 0, whatever its numeric quantity. */
  lemma FalsyPriceChargesZero(q: real, rest: map<string, Value>)
    requires "price" !in rest || !Truthy(rest["price"])
    ensures ItemTotal(Obj(rest["quantity" := Num(Finite(q))])) == Returned(Finite(0.0))
  {
    var v := Obj(rest["quantity" := Num(Finite(q))]);
    assert !Truthy(Get(v, "price"));
    assert Or(Get(v, "price"), Num(Finite(0.0))) == Num(Finite(0.0));
    assert Get(v, "quantity") == Num(Finite(q));
    assert ToNumber(Or(Get(v, "quantity"), Num(Finite(1.0)))) == Finite(if q == 0.0 then 1.0 else q);
    assert ItemTotal(v) == Returned(Mul(Finite(0.0), Finite(if q == 0.0 then 1.0 else q)));
  }

  // ---------------------------------------------------------------------
  // isEmpty
  // ---------------------------------------------------------------------

  /** isEmpty */
  function IsEmpty(v: Value): (r: bool)
    ensures v.Null? || v.Undefined? ==> r
    ensures v.Str? ==> (r <==> Blank(v.s))
    ensures v.Arr? ==> (r <==> v.elems == [])
    ensures v.Obj? ==> (r <==> v.props == map[])
    ensures v.Num? || v.Bool? ==> !r
  {
    TrimEmptyIffBlank(if v.Str? then v.s else []);
    if v.Null? || v.Undefined? then true
    else if v.Str? then |Trim(v.s)| == 0
    else if v.Arr? then |v.elems| == 0
    else if v.Obj? then |v.props| == 0
    else false
  }
}
