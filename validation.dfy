/** The backend's request validators. Each is a chain of guards that either
    answers 400 with `{ success: false, message }` or calls `next()`; here
    the outcome is the returned Verdict. */
module Validation {
  import opened JsValues

  /** The parts of an Express request the validators read: the parsed JSON
      body, the route parameters (always strings) and the parsed query. */
  datatype Request = Request(body: map<string, Value>, params: map<string, string>, query: map<string, Value>)

  /** Exactly one outcome per request: a rejection, or next(). */
  datatype Verdict = Reject(status: int, message: string) | Next

  const BadRequest := 400

  const ProductFieldsRequired := "Barcode, name, and price are required"
  const PriceNotPositive := "Price must be a positive number"
  const BarcodeNotString := "Barcode must be a non-empty string"
  const NameNotString := "Name must be a non-empty string"
  const CartIdsRequired := "User ID and product ID are required"
  const QuantityNotPositive := "Quantity must be a positive number"
  const IdRequired := "Valid ID is required"
  const QueryRequired := "Search query is required"

  /** Destructuring `const { key } = m`: a missing key is undefined. */
  function Field(m: map<string, Value>, key: string): Value {
    if key in m then m[key] else Undefined
  }

  /** A string with at least one character that is not whitespace. */
  predicate IsNonBlankString(v: Value) {
    v.Str? && !Blank(v.s)
  }

  /** A number greater than zero (NaN is not). */
  predicate IsPositiveNumber(v: Value) {
    v.Num? && v.n.Finite? && v.n.r > 0.0
  }

  /** `typeof v !== 'string' || v.trim().length === 0` */
  function NotNonBlankString(v: Value): (r: bool)
    ensures r <==> !IsNonBlankString(v)
  {
    if v.Str? then TrimEmptyIffBlank(v.s); |Trim(v.s)| == 0 else true
  }

  /** validateProduct */
  function ValidateProduct(req: Request): (r: Verdict)
    ensures r.Next? <==>
      && IsNonBlankString(Field(req.body, "barcode"))
      && IsNonBlankString(Field(req.body, "name"))
      && IsPositiveNumber(Field(req.body, "price"))
    ensures r.Reject? ==> r.status == BadRequest
    ensures r == Reject(BadRequest, ProductFieldsRequired) <==>
      !Truthy(Field(req.body, "barcode")) || !Truthy(Field(req.body, "name")) || !Truthy(Field(req.body, "price"))
    ensures r == Reject(BadRequest, PriceNotPositive) <==>
      && Truthy(Field(req.body, "barcode")) && Truthy(Field(req.body, "name"))
      && Truthy(Field(req.body, "price")) && !IsPositiveNumber(Field(req.body, "price"))
    ensures r == Reject(BadRequest, BarcodeNotString) <==>
      && Truthy(Field(req.body, "barcode")) && Truthy(Field(req.body, "name"))
      && IsPositiveNumber(Field(req.body, "price")) && !IsNonBlankString(Field(req.body, "barcode"))
    ensures r == Reject(BadRequest, NameNotString) <==>
      && IsNonBlankString(Field(req.body, "barcode")) && Truthy(Field(req.body, "name"))
      && IsPositiveNumber(Field(req.body, "price")) && !IsNonBlankString(Field(req.body, "name"))
  {
    var barcode, name, price := Field(req.body, "barcode"), Field(req.body, "name"), Field(req.body, "price");
    if !Truthy(barcode) || !Truthy(name) || !Truthy(price) then Reject(BadRequest, ProductFieldsRequired)
    else if !price.Num? || !(price.n.Finite? && price.n.r > 0.0) then Reject(BadRequest, PriceNotPositive)
    else if NotNonBlankString(barcode) then Reject(BadRequest, BarcodeNotString)
    else if NotNonBlankString(name) then Reject(BadRequest, NameNotString)
    else Next
  }

  /** validateCartItem */
  function ValidateCartItem(req: Request): (r: Verdict)
    ensures r.Next? <==>
      && Truthy(Field(req.body, "userId")) && Truthy(Field(req.body, "productId"))
      && (!Truthy(Field(req.body, "quantity")) || IsPositiveNumber(Field(req.body, "quantity")))
    ensures r.Reject? ==> r.status == BadRequest
    ensures r == Reject(BadRequest, CartIdsRequired) <==>
      !Truthy(Field(req.body, "userId")) || !Truthy(Field(req.body, "productId"))
    ensures r == Reject(BadRequest, QuantityNotPositive) <==>
      && Truthy(Field(req.body, "userId")) && Truthy(Field(req.body, "productId"))
      && Truthy(Field(req.body, "quantity")) && !IsPositiveNumber(Field(req.body, "quantity"))
  {
    var userId, productId, quantity := Field(req.body, "userId"), Field(req.body, "productId"), Field(req.body, "quantity");
    if !Truthy(userId) || !Truthy(productId) then Reject(BadRequest, CartIdsRequired)
    else if Truthy(quantity) && (!quantity.Num? || !(quantity.n.Finite? && quantity.n.r > 0.0)) then
      Reject(BadRequest, QuantityNotPositive)
    else Next
  }

  /** validateId */
  function ValidateId(req: Request): (r: Verdict)
    ensures r.Next? <==> "id" in req.params && req.params["id"] != [] && ParseInt(req.params["id"]).Finite?
    ensures r.Reject? ==> r == Reject(BadRequest, IdRequired)
  {
    if !("id" in req.params) || req.params["id"] == [] || ParseInt(req.params["id"]).NaN? then
      Reject(BadRequest, IdRequired)
    else Next
  }

  /** validateSearchQuery */
  function ValidateSearchQuery(req: Request): (r: Verdict)
    ensures r.Next? <==> IsNonBlankString(Field(req.query, "q"))
    ensures r.Reject? ==> r == Reject(BadRequest, QueryRequired)
  {
    var q := Field(req.query, "q");
    if !Truthy(q) || NotNonBlankString(q) then Reject(BadRequest, QueryRequired)
    else Next
  }

  // ---------------------------------------------------------------------
  // Consequences
  // ---------------------------------------------------------------------

  /** A price of 0 is missing, not non-positive: the presence check reports it. */
  lemma ZeroPriceIsMissing(req: Request)
    requires Field(req.body, "price") == Num(Finite(0.0))
    ensures ValidateProduct(req) == Reject(BadRequest, ProductFieldsRequired)
  {
  }

  /** A whitespace-only barcode or name passes the presence check and is
      reported by its own string check. */
  lemma BlankBarcodeReported(req: Request, spaces: string)
    requires spaces != [] && Blank(spaces)
    requires Field(req.body, "barcode") == Str(spaces)
    requires Truthy(Field(req.body, "name")) && IsPositiveNumber(Field(req.body, "price"))
    ensures ValidateProduct(req) == Reject(BadRequest, BarcodeNotString)
  {
  }

  /** A missing or zero quantity passes validateCartItem once both ids are present. */
  lemma AbsentQuantityPasses(req: Request)
    requires Truthy(Field(req.body, "userId")) && Truthy(Field(req.body, "productId"))
    requires Field(req.body, "quantity") in {Undefined, Num(Finite(0.0)), Num(NaN)}
    ensures ValidateCartItem(req) == Next
  {
  }

  /** Every id written as a decimal natural number passes validateId. */
  lemma DecimalIdPasses(req: Request, n: nat)
    requires "id" in req.params && req.params["id"] == DecimalString(n)
    ensures ValidateId(req) == Next
  {
    ParseIntDecimalString(n);
  }

  /** validateId rejects exactly the ids with no digit after the whitespace
      and sign; "0x" with no hexadecimal digit after it is rejected too. */
  lemma ValidateIdDigits(req: Request)
    requires "id" in req.params
    ensures ValidateId(req).Next? <==>
      var u := ParseIntBody(req.params["id"]);
      if |u| >= 2 && u[0] == '0' && (u[1] == 'x' || u[1] == 'X')
      then |u| > 2 && IsRadixDigit(u[2], 16)
      else u != [] && IsRadixDigit(u[0], 10)
  {
    ParseIntNaNIff(req.params["id"]);
  }
}
