/** The session cart held by CartProvider: an ordered list of line items keyed
    by barcode, the three transitions the provider exposes (addToCart,
    updateQuantity, clearCart), and the two totals the screens derive from it.
    Prices are integers in the smallest currency unit. */
module CartContext {

  datatype Option<T> = None | Some(value: T)

  /** The fields of a product record that the cart keeps. */
  datatype Product = Product(barcode: string, name: string, price: int)

  /** A line item: the product's fields captured when it was first added, and a quantity. */
  datatype Item = Item(barcode: string, name: string, price: int, quantity: int)

  /** `{ ...product, quantity: 1 }` */
  function NewItem(p: Product): Item {
    Item(p.barcode, p.name, p.price, 1)
  }

  predicate HasBarcode(cart: seq<Item>, barcode: string) {
    exists i :: 0 <= i < |cart| && cart[i].barcode == barcode
  }

  /** No two line items share a barcode. */
  predicate UniqueBarcodes(cart: seq<Item>) {
    forall i, j :: 0 <= i < j < |cart| ==> cart[i].barcode != cart[j].barcode
  }

  /** Every line item holds at least one unit. */
  predicate QuantitiesPositive(cart: seq<Item>) {
    forall i :: 0 <= i < |cart| ==> cart[i].quantity >= 1
  }

  /** `cart.find(item => item.barcode === barcode)`: the first matching item. */
  function Find(cart: seq<Item>, barcode: string): (r: Option<Item>)
    ensures r.Some? <==> HasBarcode(cart, barcode)
    ensures r.Some? ==> r.value in cart && r.value.barcode == barcode
  {
    if cart == [] then None
    else if cart[0].barcode == barcode then Some(cart[0])
    else Find(cart[1..], barcode)
  }

  /** `cart.map(item => item.barcode === barcode ? { ...item, quantity: f(item.quantity) } : item)` */
  function MapMatching(cart: seq<Item>, barcode: string, f: int -> int): (r: seq<Item>)
    ensures |r| == |cart|
    ensures forall i {:trigger r[i]} :: 0 <= i < |cart| ==>
      r[i] == if cart[i].barcode == barcode then cart[i].(quantity := f(cart[i].quantity)) else cart[i]
  {
    if cart == [] then []
    else
      var head := if cart[0].barcode == barcode then cart[0].(quantity := f(cart[0].quantity)) else cart[0];
      [head] + MapMatching(cart[1..], barcode, f)
  }

  /** The new cart after addToCart(product). */
  function Added(cart: seq<Item>, product: Product): (r: seq<Item>)
    ensures !HasBarcode(cart, product.barcode) ==> r == cart + [NewItem(product)]
    ensures HasBarcode(cart, product.barcode) ==>
      |r| == |cart| &&
      forall i {:trigger r[i]} :: 0 <= i < |cart| ==>
        && r[i].barcode == cart[i].barcode
        && r[i].name == cart[i].name
        && r[i].price == cart[i].price
        && r[i].quantity == if cart[i].barcode == product.barcode then cart[i].quantity + 1 else cart[i].quantity
  {
    if Find(cart, product.barcode).Some? then MapMatching(cart, product.barcode, q => q + 1)
    else cart + [NewItem(product)]
  }

  /** `Math.max(q + delta, 1)` */
  function Clamp(q: int, delta: int): (r: int)
    ensures r >= 1 && r >= q + delta
    ensures r == q + delta || r == 1
  {
    if q + delta > 1 then q + delta else 1
  }

  /** The new cart after updateQuantity(barcode, delta). */
  function Updated(cart: seq<Item>, barcode: string, delta: int): (r: seq<Item>)
    ensures |r| == |cart|
    ensures forall i {:trigger r[i]} :: 0 <= i < |cart| ==>
      && r[i].barcode == cart[i].barcode
      && r[i].name == cart[i].name
      && r[i].price == cart[i].price
      && r[i].quantity == if cart[i].barcode == barcode then Clamp(cart[i].quantity, delta) else cart[i].quantity
  {
    MapMatching(cart, barcode, q => Clamp(q, delta))
  }

  // ---------------------------------------------------------------------
  // Derived totals, as the cart and home screens compute them
  // ---------------------------------------------------------------------

  /** No line item has a negative unit price. */
  predicate PricesNonNegative(cart: seq<Item>) {
    forall i :: 0 <= i < |cart| ==> cart[i].price >= 0
  }

  /** `cart.reduce((count, item) => count + item.quantity, 0)`; when every
      quantity is at least one, the count bounds the number of lines. */
  function ItemCount(cart: seq<Item>): (n: int)
    ensures QuantitiesPositive(cart) ==> n >= |cart|
  {
    if cart == [] then 0 else cart[0].quantity + ItemCount(cart[1..])
  }

  /** `cart.reduce((total, item) => total + item.price * item.quantity, 0)`;
      never negative on a cart of non-negative prices and positive quantities. */
  function PriceSum(cart: seq<Item>): (total: int)
    ensures PricesNonNegative(cart) && QuantitiesPositive(cart) ==> total >= 0
  {
    if cart == [] then 0 else cart[0].price * cart[0].quantity + PriceSum(cart[1..])
  }

  /** The unit price addToCart(product) charges: that of the line item already
      holding the barcode, else the product's own. */
  function UnitPrice(cart: seq<Item>, product: Product): int {
    match Find(cart, product.barcode)
    case Some(item) => item.price
    case None => product.price
  }

  /** The unit price of the line item holding the barcode (0 when there is none). */
  function LinePrice(cart: seq<Item>, barcode: string): int {
    match Find(cart, barcode)
    case Some(item) => item.price
    case None => 0
  }

  /** The quantity change updateQuantity(barcode, delta) makes, given unique barcodes. */
  function QuantityChange(cart: seq<Item>, barcode: string, delta: int): int {
    match Find(cart, barcode)
    case Some(item) => Clamp(item.quantity, delta) - item.quantity
    case None => 0
  }

  // ---------------------------------------------------------------------
  // Lemmas
  // ---------------------------------------------------------------------

  lemma {:induction false} TotalsAppend(cart: seq<Item>, item: Item)
    ensures ItemCount(cart + [item]) == ItemCount(cart) + item.quantity
    ensures PriceSum(cart + [item]) == PriceSum(cart) + item.price * item.quantity
  {
    if cart != [] {
      assert (cart + [item])[1..] == cart[1..] + [item];
      TotalsAppend(cart[1..], item);
    } else {
      assert cart + [item] == [item];
    }
  }

  /** With unique barcodes, find returns the one item holding the barcode. */
  lemma {:induction false} FindUnique(cart: seq<Item>, i: nat)
    requires UniqueBarcodes(cart) && i < |cart|
    ensures Find(cart, cart[i].barcode) == Some(cart[i])
  {
    if i > 0 {
      assert cart[0].barcode != cart[i].barcode;
      assert cart[1..][i - 1] == cart[i];
      FindUnique(cart[1..], i - 1);
    }
  }

  /** Replacing one item changes the totals by that item's difference alone. */
  lemma {:induction false} TotalsReplaceAt(cart: seq<Item>, i: nat, item: Item)
    requires i < |cart|
    ensures ItemCount(cart[i := item]) == ItemCount(cart) + (item.quantity - cart[i].quantity)
    ensures PriceSum(cart[i := item])
         == PriceSum(cart) + (item.price * item.quantity - cart[i].price * cart[i].quantity)
  {
    if i > 0 {
      assert cart[i := item][1..] == cart[1..][i - 1 := item];
      TotalsReplaceAt(cart[1..], i - 1, item);
    }
  }

  /** addToCart never creates a second line item for a barcode. */
  lemma AddedKeepsUnique(cart: seq<Item>, product: Product)
    requires UniqueBarcodes(cart)
    ensures UniqueBarcodes(Added(cart, product))
  {
  }

  /** addToCart never drives a quantity below one. */
  lemma AddedKeepsPositive(cart: seq<Item>, product: Product)
    requires QuantitiesPositive(cart)
    ensures QuantitiesPositive(Added(cart, product))
  {
  }

  /** updateQuantity never drives a quantity below one. */
  lemma UpdatedKeepsPositive(cart: seq<Item>, barcode: string, delta: int)
    requires QuantitiesPositive(cart)
    ensures QuantitiesPositive(Updated(cart, barcode, delta))
  {
  }

  /** updateQuantity never changes the barcodes, so it keeps them unique. */
  lemma UpdatedKeepsUnique(cart: seq<Item>, barcode: string, delta: int)
    requires UniqueBarcodes(cart)
    ensures UniqueBarcodes(Updated(cart, barcode, delta))
  {
  }

  /** updateQuantity on a barcode not in the cart leaves it identical. */
  lemma UpdatedAbsent(cart: seq<Item>, barcode: string, delta: int)
    requires !HasBarcode(cart, barcode)
    ensures Updated(cart, barcode, delta) == cart
  {
    var r := Updated(cart, barcode, delta);
    assert forall i :: 0 <= i < |cart| ==> r[i] == cart[i];
  }

  /** With unique barcodes, addToCart of a product already present bumps
      exactly that item by one and leaves every other item as it was. */
  lemma AddedPresent(cart: seq<Item>, i: nat, product: Product)
    requires UniqueBarcodes(cart) && i < |cart| && cart[i].barcode == product.barcode
    ensures Added(cart, product) == cart[i := cart[i].(quantity := cart[i].quantity + 1)]
  {
    var r := Added(cart, product);
    assert HasBarcode(cart, product.barcode);
    assert forall j :: 0 <= j < |cart| && j != i ==> r[j] == cart[j];
  }

  /** With unique barcodes, updateQuantity changes exactly the matching item. */
  lemma UpdatedPresent(cart: seq<Item>, i: nat, delta: int)
    requires UniqueBarcodes(cart) && i < |cart|
    ensures Updated(cart, cart[i].barcode, delta)
         == cart[i := cart[i].(quantity := Clamp(cart[i].quantity, delta))]
  {
    var r := Updated(cart, cart[i].barcode, delta);
    assert forall j :: 0 <= j < |cart| && j != i ==> r[j] == cart[j];
  }

  /** Distributivity, kept apart so that the totals proofs need no nonlinear search. */
  lemma ScaleDifference(price: int, q: int, q0: int)
    ensures price * q - price * q0 == price * (q - q0)
  {
  }

  /** Setting one line's quantity moves the item count by the change and
      the price sum by the line's price times the change. */
  lemma TotalsSetQuantity(cart: seq<Item>, i: nat, q: int, r: seq<Item>)
    requires i < |cart| && r == cart[i := cart[i].(quantity := q)]
    ensures ItemCount(r) == ItemCount(cart) + (q - cart[i].quantity)
    ensures PriceSum(r) == PriceSum(cart) + cart[i].price * (q - cart[i].quantity)
  {
    var item := cart[i];
    TotalsReplaceAt(cart, i, item.(quantity := q));
    ScaleDifference(item.price, q, item.quantity);
  }

  lemma AddedTotalsAt(cart: seq<Item>, i: nat, product: Product)
    requires UniqueBarcodes(cart) && i < |cart| && cart[i].barcode == product.barcode
    ensures ItemCount(Added(cart, product)) == ItemCount(cart) + 1
    ensures PriceSum(Added(cart, product)) == PriceSum(cart) + cart[i].price
  {
    AddedPresent(cart, i, product);
    TotalsSetQuantity(cart, i, cart[i].quantity + 1, Added(cart, product));
  }

  /** addToCart adds one unit, charged at the price captured when the barcode first entered the cart. */
  lemma AddedTotals(cart: seq<Item>, product: Product)
    requires UniqueBarcodes(cart)
    ensures ItemCount(Added(cart, product)) == ItemCount(cart) + 1
    ensures PriceSum(Added(cart, product)) == PriceSum(cart) + UnitPrice(cart, product)
  {
    if HasBarcode(cart, product.barcode) {
      var i :| 0 <= i < |cart| && cart[i].barcode == product.barcode;
      FindUnique(cart, i);
      AddedTotalsAt(cart, i, product);
    } else {
      TotalsAppend(cart, NewItem(product));
    }
  }

  /** updateQuantity changes the totals by the matching item's clamped quantity change. */
  lemma UpdatedTotals(cart: seq<Item>, barcode: string, delta: int)
    requires UniqueBarcodes(cart)
    ensures ItemCount(Updated(cart, barcode, delta)) == ItemCount(cart) + QuantityChange(cart, barcode, delta)
    ensures PriceSum(Updated(cart, barcode, delta))
         == PriceSum(cart) + LinePrice(cart, barcode) * QuantityChange(cart, barcode, delta)
  {
    if HasBarcode(cart, barcode) {
      var i :| 0 <= i < |cart| && cart[i].barcode == barcode;
      FindUnique(cart, i);
      UpdatedPresent(cart, i, delta);
      TotalsSetQuantity(cart, i, Clamp(cart[i].quantity, delta), Updated(cart, barcode, delta));
    } else {
      UpdatedAbsent(cart, barcode, delta);
    }
  }

  // ---------------------------------------------------------------------
  // The provider's state
  // ---------------------------------------------------------------------

  /** CartProvider: the `cart` state and the operations that replace it. */
  class CartProvider {
    var cart: seq<Item>

    /** The cart's invariant: unique barcodes, every quantity at least one. */
    ghost predicate Valid()
      reads this
    {
      UniqueBarcodes(cart) && QuantitiesPositive(cart)
    }

    /** getTotalItems / getCartItemCount */
    function TotalItems(): (n: int)
      reads this
      ensures Valid() ==> n >= |cart|
    {
      ItemCount(cart)
    }

    /** getTotalPrice / getCartTotal */
    function TotalPrice(): (total: int)
      reads this
      ensures Valid() && PricesNonNegative(cart) ==> total >= 0
    {
      PriceSum(cart)
    }

    /** `useState([])` */
    constructor ()
      ensures cart == [] && Valid()
      ensures TotalItems() == 0 && TotalPrice() == 0
    {
      cart := [];
    }

    method AddToCart(product: Product)
      modifies this
      ensures cart == Added(old(cart), product)
      ensures old(Valid()) ==> Valid()
      ensures old(Valid()) ==> TotalItems() == old(TotalItems()) + 1
      ensures old(Valid()) ==> TotalPrice() == old(TotalPrice()) + UnitPrice(old(cart), product)
    {
      if Valid() {
        AddedKeepsUnique(cart, product);
        AddedKeepsPositive(cart, product);
        AddedTotals(cart, product);
      }
      cart := Added(cart, product);
    }

    method UpdateQuantity(barcode: string, delta: int)
      modifies this
      ensures cart == Updated(old(cart), barcode, delta)
      ensures !HasBarcode(old(cart), barcode) ==> cart == old(cart)
      ensures old(Valid()) ==> Valid()
      ensures old(Valid()) ==> TotalItems() == old(TotalItems()) + QuantityChange(old(cart), barcode, delta)
      ensures old(Valid()) ==>
        TotalPrice() == old(TotalPrice()) + LinePrice(old(cart), barcode) * QuantityChange(old(cart), barcode, delta)
    {
      if !HasBarcode(cart, barcode) {
        UpdatedAbsent(cart, barcode, delta);
      }
      if Valid() {
        UpdatedKeepsUnique(cart, barcode, delta);
        UpdatedKeepsPositive(cart, barcode, delta);
        UpdatedTotals(cart, barcode, delta);
      }
      cart := Updated(cart, barcode, delta);
    }

    method ClearCart()
      modifies this
      ensures cart == [] && Valid()
      ensures TotalItems() == 0 && TotalPrice() == 0
    {
      cart := [];
    }
  }

  /** A session as the app drives it: scan the same product twice, then
      lower its quantity past one. */
  method ScanSession() {
    var provider := new CartProvider();
    var pepsi := Product("123", "Pepsi", 50);
    provider.AddToCart(pepsi);
    assert provider.cart == [Item("123", "Pepsi", 50, 1)];
    assert provider.TotalItems() == 1 && provider.TotalPrice() == 50;
    provider.AddToCart(pepsi);
    assert provider.TotalItems() == 2 && provider.TotalPrice() == 100;
    assert |provider.cart| == 1 && provider.cart[0].quantity == 2;
    provider.UpdateQuantity("123", -5);
    assert provider.cart[0].quantity == 1;
  }

  /** Two different products make two lines; paying clears the cart, and
      clearing an empty cart leaves it empty. */
  method CheckoutSession() {
    var provider := new CartProvider();
    provider.AddToCart(Product("123", "Pepsi", 50));
    provider.AddToCart(Product("456", "Chips", 20));
    assert |provider.cart| == 2;
    provider.ClearCart();
    assert |provider.cart| == 0 && provider.TotalPrice() == 0;
    provider.ClearCart();
    assert provider.cart == [];
  }
}
