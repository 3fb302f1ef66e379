/**
 The invoice payload validator (the `validateInvoiceData` middleware) as a
 pure decision on the request body. The Express plumbing is reduced to three
 outcomes: `Pass` (the middleware calls `next()`), `Incomplete` (it answers
 with the incomplete-data error) and `ServerError` (an exception was caught).
 */
module InvoiceValidator {
  import opened JsValue

  datatype Outcome = Pass | Incomplete | ServerError

  /** What checking one list item decides. */
  datatype ItemVerdict = ItemOk | ItemBad | ItemThrows

  // ---------------------------------------------------------------------------
  // Reference definitions: what a well-formed invoice is, stated directly on
  // the parsed JSON and independently of the validator's control flow.
  // ---------------------------------------------------------------------------

  predicate StrAt(m: map<string, Value>, k: string) {
    k in m && m[k].Str?
  }

  predicate NumAt(m: map<string, Value>, k: string) {
    k in m && m[k].Num?
  }

  /** A line item: string `id`, non-empty string `details`, numeric `quantity`, `rate`, `total`. */
  predicate WellFormedItem(v: Value) {
    v.Obj?
    && StrAt(v.fields, "id")
    && StrAt(v.fields, "details") && v.fields["details"].s != ""
    && NumAt(v.fields, "quantity")
    && NumAt(v.fields, "rate")
    && NumAt(v.fields, "total")
  }

  predicate AllWellFormed(items: seq<Value>) {
    forall i :: 0 <= i < |items| ==> WellFormedItem(items[i])
  }

  /** Every item before position `n` is well-formed. */
  predicate WellFormedBefore(items: seq<Value>, n: int) {
    forall j :: 0 <= j < n && j < |items| ==> WellFormedItem(items[j])
  }

  /** The first item that is not well-formed exists and is null or undefined. */
  predicate FirstBadIsNullish(items: seq<Value>) {
    exists i :: 0 <= i < |items| && Nullish(items[i]) && WellFormedBefore(items, i)
  }

  /** The first item that is not well-formed exists and is not null or undefined. */
  predicate FirstBadIsMalformed(items: seq<Value>) {
    exists i :: 0 <= i < |items| && !Nullish(items[i]) && !WellFormedItem(items[i])
                && WellFormedBefore(items, i)
  }

  /** The body is an object whose four required entries are all truthy. */
  predicate RequiredTruthy(body: Value) {
    body.Obj?
    && Truthy(Lookup(body.fields, "buyerName"))
    && Truthy(Lookup(body.fields, "date"))
    && Truthy(Lookup(body.fields, "list"))
    && Truthy(Lookup(body.fields, "total"))
  }

  /** The required entries are truthy and `list` is an array. */
  predicate HasItemList(body: Value) {
    RequiredTruthy(body) && body.fields["list"].Arr?
  }

  /** The payload the validator lets through. */
  predicate AcceptedInvoice(body: Value) {
    HasItemList(body) && AllWellFormed(body.fields["list"].items)
  }

  /** The payloads on which the validator runs into a TypeError. */
  predicate ThrowingInvoice(body: Value) {
    Nullish(body) || (HasItemList(body) && FirstBadIsNullish(body.fields["list"].items))
  }

  // ---------------------------------------------------------------------------
  // The validator, following the order of the source's statements.
  // ---------------------------------------------------------------------------

  /**
   The body of the `for ... of` loop for one item: `item.id` is read first and
   throws when the item is nullish; after that every read succeeds, and the
   `||` chain rejects the item when any field has the wrong `typeof` or
   `details` is the empty string.
   */
  function CheckItem(item: Value): (r: ItemVerdict)
    ensures r == ItemThrows <==> Nullish(item)
    ensures r == ItemOk <==> WellFormedItem(item)
  {
    match Get(item, Id)
    case Thrown => ItemThrows
    case Got(id) =>
      var details := Prop(item, Details);
      if TypeOf(id) != TString
         || TypeOf(details) != TString
         || TypeOf(Prop(item, Quantity)) != TNumber
         || TypeOf(Prop(item, Rate)) != TNumber
         || TypeOf(Prop(item, Total)) != TNumber
         || details == Str("")
      then ItemBad
      else ItemOk
  }

  /** The `for ... of` loop over the list: the first item that is not accepted decides. */
  function ScanItems(items: seq<Value>): (r: Outcome)
    ensures r == Pass <==> AllWellFormed(items)
    ensures r == ServerError <==> FirstBadIsNullish(items)
    ensures r == Incomplete <==> FirstBadIsMalformed(items)
    decreases |items|
  {
    if |items| == 0 then Pass
    else
      match CheckItem(items[0])
      case ItemThrows => ServerError
      case ItemBad => Incomplete
      case ItemOk =>
        var rest := ScanItems(items[1..]);
        ShiftFirstBad(items);
        rest
  }

  /** Removing a well-formed head item shifts the first bad position by one. */
  lemma ShiftFirstBad(items: seq<Value>)
    requires |items| > 0 && WellFormedItem(items[0])
    ensures AllWellFormed(items) <==> AllWellFormed(items[1..])
    ensures FirstBadIsNullish(items) <==> FirstBadIsNullish(items[1..])
    ensures FirstBadIsMalformed(items) <==> FirstBadIsMalformed(items[1..])
  {
  }

  /**
   `validateInvoiceData` on a request body. Destructuring a nullish body
   throws; otherwise the four required fields are tested for truthiness, then
   `list` for being an array, then the items in order.
   */
  function Validate(body: Value): (r: Outcome)
    ensures r == Pass <==> AcceptedInvoice(body)
    ensures r == ServerError <==> ThrowingInvoice(body)
    ensures r == Incomplete <==> !AcceptedInvoice(body) && !ThrowingInvoice(body)
  {
    if Nullish(body) then ServerError
    else
      var buyerName := Prop(body, BuyerName);
      var date := Prop(body, Date);
      var list := Prop(body, List);
      var total := Prop(body, Total);
      if !Truthy(buyerName) || !Truthy(date) || !Truthy(list) || !Truthy(total) then Incomplete
      else if !IsArray(list) then Incomplete
      else ScanItems(list.items)
  }

  /**
   The same decision written as the source writes it, with a loop over the
   items that returns at the first rejected or throwing item.
   */
  method ValidateInvoiceData(body: Value) returns (r: Outcome)
    ensures r == Pass <==> AcceptedInvoice(body)
    ensures r == ServerError <==> ThrowingInvoice(body)
    ensures r == Validate(body)
  {
    if Nullish(body) {
      return ServerError;
    }
    var buyerName := Prop(body, BuyerName);
    var date := Prop(body, Date);
    var list := Prop(body, List);
    var total := Prop(body, Total);
    if !Truthy(buyerName) || !Truthy(date) || !Truthy(list) || !Truthy(total) {
      return Incomplete;
    }
    if !IsArray(list) {
      return Incomplete;
    }
    var items := list.items;
    var i := 0;
    while i < |items|
      invariant 0 <= i <= |items|
      invariant WellFormedBefore(items, i)
    {
      var verdict := CheckItem(items[i]);
      if verdict == ItemThrows {
        return ServerError;
      }
      if verdict == ItemBad {
        return Incomplete;
      }
      i := i + 1;
    }
    r := Pass;
  }
}
