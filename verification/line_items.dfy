/** Invoice line items as the wizard drafts hold them, their sum, and the
    line-item payload both invoice review steps submit. */
module LineItems {
  import opened Wrappers

  /** A drafted line item. Prices are exact decimals here. */
  datatype LineItem = LineItem(id: string, name: string, unitPrice: real, quantity: int, description: Option<string>)

  /** A line item as submitted. */
  datatype PayloadItem = PayloadItem(item_name: string, taxable_amount: real, quantity: int)

  function LineAmount(it: LineItem): real {
    it.unitPrice * it.quantity as real
  }

  /** `items.reduce((acc, item) => acc + unitPrice * quantity, 0)`, added up
      from the left. */
  function Subtotal(items: seq<LineItem>): real {
    if |items| == 0 then 0.0 else Subtotal(items[..|items| - 1]) + LineAmount(items[|items| - 1])
  }

  /** Well-formed line items: the price is not negative and at least one
      unit is sold. */
  predicate ValidItem(it: LineItem) {
    it.unitPrice >= 0.0 && it.quantity >= 1
  }

  /** The sum of well-formed items is never negative, and it is zero for an
      empty list. */
  lemma {:induction false} SubtotalNonNegative(items: seq<LineItem>)
    requires forall i :: 0 <= i < |items| ==> ValidItem(items[i])
    ensures Subtotal(items) >= 0.0
    ensures |items| == 0 ==> Subtotal(items) == 0.0
    decreases |items|
  {
    if |items| > 0 {
      SubtotalNonNegative(items[..|items| - 1]);
      var last := items[|items| - 1];
      assert ValidItem(last);
      assert last.unitPrice * last.quantity as real >= 0.0;
    }
  }

  /** The sum splits over concatenation. */
  lemma {:induction false} SubtotalAppend(a: seq<LineItem>, b: seq<LineItem>)
    ensures Subtotal(a + b) == Subtotal(a) + Subtotal(b)
    decreases |b|
  {
    if |b| == 0 {
      assert a + b == a;
    } else {
      var b' := b[..|b| - 1];
      SubtotalAppend(a, b');
      assert (a + b)[..|a + b| - 1] == a + b';
    }
  }

  /** Sums the line amounts in order, as the `reduce` call does. */
  method SumLineAmounts(items: seq<LineItem>) returns (acc: real)
    ensures acc == Subtotal(items)
  {
    acc := 0.0;
    var i := 0;
    while i < |items|
      invariant 0 <= i <= |items|
      invariant acc == Subtotal(items[..i])
    {
      assert items[..i + 1][..i] == items[..i];
      acc := acc + LineAmount(items[i]);
      i := i + 1;
    }
    assert items[..i] == items;
  }

  /** `items.map(item => ({ item_name, taxable_amount, quantity }))`. */
  function ToPayload(items: seq<LineItem>): (ps: seq<PayloadItem>)
    ensures |ps| == |items|
    ensures forall i :: 0 <= i < |items| ==>
      ps[i].item_name == items[i].name && ps[i].taxable_amount == items[i].unitPrice && ps[i].quantity == items[i].quantity
  {
    seq(|items|, i requires 0 <= i < |items| => PayloadItem(items[i].name, items[i].unitPrice, items[i].quantity))
  }

  /** The sum the receiving service can recompute from the payload. */
  function PayloadSubtotal(ps: seq<PayloadItem>): real {
    if |ps| == 0 then 0.0 else PayloadSubtotal(ps[..|ps| - 1]) + ps[|ps| - 1].taxable_amount * ps[|ps| - 1].quantity as real
  }

  /** The payload loses nothing the sum depends on: recomputing it from the
      submitted lines gives the draft's subtotal. */
  lemma {:induction false} PayloadPreservesSubtotal(items: seq<LineItem>)
    ensures PayloadSubtotal(ToPayload(items)) == Subtotal(items)
    decreases |items|
  {
    if |items| > 0 {
      var front := items[..|items| - 1];
      PayloadPreservesSubtotal(front);
      assert ToPayload(items)[..|items| - 1] == ToPayload(front);
    }
  }
}
