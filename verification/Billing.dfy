/** Invoice arithmetic: normalising the lines of a request, and the check that ties the
    stored lines of an invoice to its header.
    internal/service/invoice_items.go, internal/httpapi/api.go. */
module Billing {
  import opened Tables

  /** One line as submitted; `net`, `tax` and `gross` are cents. */
  datatype Item = Item(quantity: real, price: real, net: int, rate: real, tax: int, gross: int)

  /** `FloatString(2)` of a non-negative rational: cents, halves rounded up. */
  function Cents(x: real): int {
    (x * 100.0 + 0.5).Floor
  }

  function Money(cents: int): real {
    cents as real / 100.0
  }

  /** Cents of a product of two non-negative rationals. */
  function Product(x: real, y: real): int {
    Cents(x * y)
  }

  predicate Accepted(i: Item) {
    && 0.0 < i.quantity && 0.0 <= i.price && 0.0 <= i.rate
    && 0 < i.net && 0 <= i.tax && 0 < i.gross
    && i.net == Product(i.quantity, i.price)
    && i.tax == Product(Money(i.net), i.rate)
    && i.gross == i.net + i.tax
  }

  function LineOf(i: Item): Line {
    Line(i.net, i.tax, i.gross)
  }

  function SumNet(lines: seq<Line>): int {
    if lines == [] then 0 else SumNet(lines[..|lines| - 1]) + lines[|lines| - 1].net
  }

  function SumTax(lines: seq<Line>): int {
    if lines == [] then 0 else SumTax(lines[..|lines| - 1]) + lines[|lines| - 1].tax
  }

  function SumGross(lines: seq<Line>): int {
    if lines == [] then 0 else SumGross(lines[..|lines| - 1]) + lines[|lines| - 1].gross
  }

  /** The header is the exact sum of the lines. */
  predicate Adds(b: Bill) {
    b.net == SumNet(b.lines) && b.tax == SumTax(b.lines) && b.gross == SumGross(b.lines)
  }

  predicate PositiveLine(l: Line) {
    0 < l.net && 0 <= l.tax && l.gross == l.net + l.tax
  }

  /** What an accepted request freezes as the face of its invoice. */
  predicate WellFormed(b: Bill) {
    b.lines != [] && Adds(b) && forall k :: 0 <= k < |b.lines| ==> PositiveLine(b.lines[k])
  }

  method NormalizeItems(items: seq<Item>) returns (r: Outcome<Bill>)
    ensures r.Done? <==> forall k :: 0 <= k < |items| ==> Accepted(items[k])
    ensures r.Done? ==>
      && |r.value.lines| == |items|
      && (forall k :: 0 <= k < |items| ==> r.value.lines[k] == LineOf(items[k]))
      && Adds(r.value)
    ensures r.Done? && items != [] ==> WellFormed(r.value)
    ensures r.Refused? ==> r.error == Invalid
  {
    hide Product, Money;
    var net, tax, gross, lines := 0, 0, 0, [];
    for k := 0 to |items|
      invariant |lines| == k
      invariant forall j :: 0 <= j < k ==> lines[j] == LineOf(items[j]) && Accepted(items[j])
      invariant net == SumNet(lines) && tax == SumTax(lines) && gross == SumGross(lines)
    {
      var i := items[k];
      if !(0.0 < i.quantity && 0.0 <= i.price && 0.0 <= i.rate && 0 < i.net && 0 <= i.tax && 0 < i.gross) {
        return Refused(Invalid);
      }
      var expectedNet := Product(i.quantity, i.price);
      var expectedTax := Product(Money(expectedNet), i.rate);
      if i.net != expectedNet || i.tax != expectedTax || i.gross != expectedNet + expectedTax {
        return Refused(Invalid);
      }
      assert (lines + [LineOf(i)])[..|lines|] == lines;
      lines := lines + [LineOf(i)];
      net, tax, gross := net + i.net, tax + i.tax, gross + i.gross;
    }
    r := Done(Bill(net, tax, gross, lines));
  }

  /** The header of an accepted request: gross is net plus tax, to the cent. */
  lemma {:induction false} HeaderAddsUp(lines: seq<Line>)
    requires forall k :: 0 <= k < |lines| ==> PositiveLine(lines[k])
    ensures SumGross(lines) == SumNet(lines) + SumTax(lines)
    ensures |lines| <= SumNet(lines) && 0 <= SumTax(lines)
  {
    if lines != [] {
      HeaderAddsUp(lines[..|lines| - 1]);
    }
  }

  // ---------- distance from the unrounded total

  function Exact(i: Item): real {
    i.quantity * i.price * (1.0 + i.rate)
  }

  function SumExact(items: seq<Item>): real {
    if items == [] then 0.0 else SumExact(items[..|items| - 1]) + Exact(items[|items| - 1])
  }

  predicate Within(x: real, y: real, bound: real) {
    x - y <= bound && y - x <= bound
  }

  lemma CentsWithin(x: real)
    requires 0.0 <= x
    ensures Within(Money(Cents(x)), x, 0.005)
  {
  }

  lemma ProductSign(x: real, y: real)
    requires 0.0 <= x && 0.0 <= y
    ensures 0.0 <= x * y
  {
  }

  lemma ShareWithin(e: real, rate: real)
    requires 0.0 <= rate <= 1.0
    ensures Within(e * rate, 0.0, if 0.0 <= e then e else -e)
  {
    var size := if 0.0 <= e then e else -e;
    ProductSign(size, rate);
    ProductSign(size, 1.0 - rate);
    assert size * (1.0 - rate) == size - size * rate;
  }

  lemma ProductWithin(x: real, y: real)
    requires 0.0 <= x && 0.0 <= y
    ensures Within(Money(Product(x, y)), x * y, 0.005)
  {
    ProductSign(x, y);
    CentsWithin(x * y);
  }

  lemma Distributes(x: real, y: real, rate: real)
    ensures (x - y) * rate == x * rate - y * rate && y * (1.0 + rate) == y + y * rate
  {
  }

  lemma LineWithin(i: Item)
    requires Accepted(i) && i.rate <= 1.0
    ensures Within(Money(i.gross), Exact(i), 0.015)
  {
    var x, net := i.quantity * i.price, Money(i.net);
    ProductWithin(i.quantity, i.price);
    ProductWithin(net, i.rate);
    ShareWithin(net - x, i.rate);
    Distributes(net, x, i.rate);
    assert Money(i.gross) == net + Money(i.tax);
  }

  /** For n lines at rates up to 100% the gross header is within 0.015 n of the total
      that would result without any rounding. */
  lemma {:induction false} GrossWithin(items: seq<Item>, lines: seq<Line>)
    requires |lines| == |items|
    requires forall k :: 0 <= k < |items| ==> Accepted(items[k]) && items[k].rate <= 1.0 && lines[k] == LineOf(items[k])
    ensures Within(Money(SumGross(lines)), SumExact(items), 0.015 * |items| as real)
  {
    if items != [] {
      var last := |items| - 1;
      GrossWithin(items[..last], lines[..last]);
      LineWithin(items[last]);
      assert Money(SumGross(lines)) == Money(SumGross(lines[..last])) + Money(items[last].gross);
      assert 0.015 * |items| as real == 0.015 * last as real + 0.015;
    }
  }

  // ---------- the detail check of a stored invoice

  /** A line may not have the opposite sign of the header's gross amount. */
  predicate SignAgrees(gross: int, l: Line) {
    && (gross < 0 ==> l.net <= 0 && l.tax <= 0 && l.gross <= 0)
    && (gross > 0 ==> l.net >= 0 && l.tax >= 0 && l.gross >= 0)
  }

  predicate Verifies(b: Bill) {
    b.lines != [] && Adds(b) && forall k :: 0 <= k < |b.lines| ==> SignAgrees(b.gross, b.lines[k])
  }

  /** `verifyTaxInvoiceDetailLines`: one pass with three running totals. */
  method VerifyDetailLines(b: Bill) returns (ok: bool)
    ensures ok <==> Verifies(b)
  {
    if b.lines == [] { return false; }
    var net, tax, gross := 0, 0, 0;
    for k := 0 to |b.lines|
      invariant net == SumNet(b.lines[..k]) && tax == SumTax(b.lines[..k]) && gross == SumGross(b.lines[..k])
      invariant forall j :: 0 <= j < k ==> SignAgrees(b.gross, b.lines[j])
    {
      if !SignAgrees(b.gross, b.lines[k]) { return false; }
      assert b.lines[..k + 1][..k] == b.lines[..k];
      net, tax, gross := net + b.lines[k].net, tax + b.lines[k].tax, gross + b.lines[k].gross;
    }
    assert b.lines[..|b.lines|] == b.lines;
    ok := net == b.net && tax == b.tax && gross == b.gross;
  }

  function NegateLine(l: Line): Line {
    Line(-l.net, -l.tax, -l.gross)
  }

  function NegateLines(lines: seq<Line>): seq<Line> {
    seq(|lines|, k requires 0 <= k < |lines| => NegateLine(lines[k]))
  }

  /** The red invoice of an original: the original's header with the sign turned, and the
      lines of the request with the sign turned (internal/service/tax_callback.go:353-358). */
  function RedBill(original: Bill, lines: seq<Line>): Bill {
    Bill(-original.net, -original.tax, -original.gross, NegateLines(lines))
  }

  lemma {:induction false} NegatedSums(lines: seq<Line>)
    ensures SumNet(NegateLines(lines)) == -SumNet(lines)
    ensures SumTax(NegateLines(lines)) == -SumTax(lines)
    ensures SumGross(NegateLines(lines)) == -SumGross(lines)
  {
    if lines != [] {
      var last := |lines| - 1;
      NegatedSums(lines[..last]);
      assert NegateLines(lines)[..last] == NegateLines(lines[..last]);
    }
  }

  /** Header of `b` is the header of the request `r`, or its negation. */
  predicate HeaderOf(b: Bill, r: Bill, negated: bool) {
    if negated then b.net == -r.net && b.tax == -r.tax && b.gross == -r.gross
    else b.net == r.net && b.tax == r.tax && b.gross == r.gross
  }

  /** A paper invoice is registered without lines (internal/service/invoice_manual.go:56). */
  function HeaderOnly(b: Bill): Bill {
    Bill(b.net, b.tax, b.gross, [])
  }

  /** The face of an invoice that issues a request with this bill. */
  predicate IsFaceOf(face: Bill, b: Bill) {
    face == b || face == HeaderOnly(b)
  }

  lemma BlueVerifies(r: Bill)
    requires WellFormed(r)
    ensures Verifies(r) && 0 < r.gross
  {
    HeaderAddsUp(r.lines);
    assert forall k :: 0 <= k < |r.lines| ==> PositiveLine(r.lines[k]);
  }

  /** A red invoice passes the detail check exactly when its original had the sign of the
      request, that is, when the original was not itself the red of a request-signed invoice. */
  lemma RedVerifiesIff(r: Bill, original: Bill, negated: bool)
    requires WellFormed(r) && HeaderOf(original, r, negated)
    ensures Verifies(RedBill(original, r.lines)) <==> 0 < original.gross
    ensures 0 < original.gross <==> !negated
  {
    BlueVerifies(r);
    NegatedSums(r.lines);
    var red := RedBill(original, r.lines);
    HeaderAddsUp(r.lines);
    assert forall k :: 0 <= k < |r.lines| ==> PositiveLine(r.lines[k]);
    if 0 < original.gross {
      forall k | 0 <= k < |red.lines| ensures SignAgrees(red.gross, red.lines[k]) {
        assert PositiveLine(r.lines[k]);
      }
    }
  }
}
