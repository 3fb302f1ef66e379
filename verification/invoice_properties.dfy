/**
 Properties of the invoice validator: its decision against the reference
 definitions, the order in which the checks are made, and the short-circuit
 behaviour of the per-item loop.
 */
module InvoiceProperties {
  import opened JsValue
  import opened InvoiceValidator

  /** Destructuring a null or undefined body throws, which the catch block turns into a server error. */
  lemma NullishBodyIsServerError(body: Value)
    requires Nullish(body)
    ensures Validate(body) == ServerError
  {
  }

  /** A body that is a string, number, boolean or array has no invoice fields at all. */
  lemma NonObjectBodyIsIncomplete(body: Value)
    requires !Nullish(body) && !body.Obj?
    ensures Validate(body) == Incomplete
  {
  }

  /**
   When `buyerName`, `date` or `total` is falsy the payload is incomplete
   whatever `list` holds: the list is never looked at.
   */
  lemma ListIgnoredWhenFieldFalsy(m: map<string, Value>, list: Value)
    requires !Truthy(Lookup(m, "buyerName")) || !Truthy(Lookup(m, "date")) || !Truthy(Lookup(m, "total"))
    ensures Validate(Obj(m["list" := list])) == Incomplete
  {
  }

  /** Any falsy required field makes the payload incomplete. */
  lemma FalsyRequiredFieldIsIncomplete(body: Value)
    requires body.Obj?
    requires !RequiredTruthy(body)
    ensures Validate(body) == Incomplete
  {
  }

  /** A total of zero is rejected, since zero is falsy. */
  lemma ZeroTotalIsIncomplete(m: map<string, Value>)
    requires "total" in m && m["total"] == Num(0)
    ensures Validate(Obj(m)) == Incomplete
  {
    FalsyRequiredFieldIsIncomplete(Obj(m));
  }

  /** An empty buyer name is rejected, since "" is falsy. */
  lemma EmptyBuyerNameIsIncomplete(m: map<string, Value>)
    requires "buyerName" in m && m["buyerName"] == Str("")
    ensures Validate(Obj(m)) == Incomplete
  {
    FalsyRequiredFieldIsIncomplete(Obj(m));
  }

  /**
   A truthy `list` that is not an array (a non-empty string, a non-zero
   number, `true` or an object) makes the payload incomplete.
   */
  lemma NonArrayListIsIncomplete(body: Value)
    requires RequiredTruthy(body)
    requires !body.fields["list"].Arr?
    ensures Validate(body) == Incomplete
  {
  }

  /**
   With an array in `list`, the list check always succeeds and the outcome is
   the item loop's, unless another required field is falsy.
   */
  lemma ValidateWithItems(m: map<string, Value>, items: seq<Value>)
    ensures Validate(Obj(m["list" := Arr(items)]))
            == if Truthy(Lookup(m, "buyerName")) && Truthy(Lookup(m, "date")) && Truthy(Lookup(m, "total"))
               then ScanItems(items) else Incomplete
  {
  }

  /** An empty array passes the truthiness and array checks and the loop does nothing. */
  lemma EmptyListPasses(m: map<string, Value>)
    requires Truthy(Lookup(m, "buyerName")) && Truthy(Lookup(m, "date")) && Truthy(Lookup(m, "total"))
    ensures Validate(Obj(m["list" := Arr([])])) == Pass
  {
    ValidateWithItems(m, []);
  }

  /**
   The loop over a concatenation: the items of the second part are only
   reached when every item of the first part is well-formed.
   */
  lemma {:induction false} ScanAppend(a: seq<Value>, b: seq<Value>)
    ensures AllWellFormed(a) ==> ScanItems(a + b) == ScanItems(b)
    ensures !AllWellFormed(a) ==> ScanItems(a + b) == ScanItems(a)
  {
    if |a| == 0 {
      assert a + b == b;
    } else {
      assert (a + b)[0] == a[0];
      assert (a + b)[1..] == a[1..] + b;
      if WellFormedItem(a[0]) {
        ScanAppend(a[1..], b);
        assert AllWellFormed(a) <==> AllWellFormed(a[1..]) by {
          ShiftFirstBad(a);
        }
      }
    }
  }

  /**
   Short-circuit: once item `i` is rejected or throws, the items after it do
   not influence the outcome.
   */
  lemma ShortCircuit(s1: seq<Value>, s2: seq<Value>, i: nat)
    requires i < |s1| && i < |s2|
    requires s1[..i + 1] == s2[..i + 1]
    requires !WellFormedItem(s1[i])
    ensures ScanItems(s1) == ScanItems(s2)
  {
    var p := s1[..i + 1];
    assert s1 == p + s1[i + 1..];
    assert s2 == p + s2[i + 1..];
    ScanAppend(p, s1[i + 1..]);
    ScanAppend(p, s2[i + 1..]);
  }

  /** Short-circuit stated on whole request bodies that differ only after the first bad item. */
  lemma ValidateShortCircuit(m: map<string, Value>, s1: seq<Value>, s2: seq<Value>, i: nat)
    requires i < |s1| && i < |s2|
    requires s1[..i + 1] == s2[..i + 1]
    requires !WellFormedItem(s1[i])
    ensures Validate(Obj(m["list" := Arr(s1)])) == Validate(Obj(m["list" := Arr(s2)]))
  {
    ValidateWithItems(m, s1);
    ValidateWithItems(m, s2);
    ShortCircuit(s1, s2, i);
  }

  /** A null or undefined item reached by the loop throws, giving a server error rather than incomplete data. */
  lemma NullishItemIsServerError(body: Value, i: nat)
    requires HasItemList(body)
    requires i < |body.fields["list"].items|
    requires Nullish(body.fields["list"].items[i])
    requires WellFormedBefore(body.fields["list"].items, i)
    ensures Validate(body) == ServerError
  {
  }

  /**
   A primitive or array item reached by the loop reads `undefined` for `id`
   instead of throwing, so the payload is incomplete.
   */
  lemma NonObjectItemIsIncomplete(body: Value, i: nat)
    requires HasItemList(body)
    requires i < |body.fields["list"].items|
    requires !Nullish(body.fields["list"].items[i]) && !body.fields["list"].items[i].Obj?
    requires WellFormedBefore(body.fields["list"].items, i)
    ensures Validate(body) == Incomplete
  {
    var items := body.fields["list"].items;
    assert FirstBadIsMalformed(items);
  }

  /** A line item `{id: "1", details, quantity: 2, rate: 50, total: 100}`. */
  function WidgetItem(details: string): Value {
    Obj(map["id" := Str("1"), "details" := Str(details), "quantity" := Num(2),
            "rate" := Num(50), "total" := Num(100)])
  }

  /** An invoice from "Acme" dated "2024-01-01" with total 100 and the given items. */
  function AcmeInvoice(items: seq<Value>): Value {
    Obj(map["buyerName" := Str("Acme"), "date" := Str("2024-01-01"), "total" := Num(100),
            "list" := Arr(items)])
  }

  /** A complete one-item invoice passes. */
  lemma AcmeInvoicePasses()
    ensures Validate(AcmeInvoice([WidgetItem("Widget")])) == Pass
  {
  }

  /** The same invoice with empty `details` is incomplete. */
  lemma EmptyDetailsIsIncomplete()
    ensures Validate(AcmeInvoice([WidgetItem("")])) == Incomplete
  {
  }

  /** The same invoice with a `null` item ahead of the widget is a server error. */
  lemma NullBeforeWidgetIsServerError()
    ensures Validate(AcmeInvoice([Null, WidgetItem("Widget")])) == ServerError
  {
    NullishItemIsServerError(AcmeInvoice([Null, WidgetItem("Widget")]), 0);
  }
}
