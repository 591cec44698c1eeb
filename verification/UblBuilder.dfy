// core/einvoicing/ubl_builder.py: the amounts a Peppol BIS invoice carries. The builder
// re-implements the allocation of core/rules/currency_math.py; this module says when the two agree.
module UblBuilder {
  import opened Common
  import opened Grouping
  import opened Money
  import opened Lines
  import opened CurrencyMath

  // ------------------------------------------------------------------ _allocated_line_nets

  function XmlNets(lines: seq<InvoiceLine>, discount: Option<Discount>): (r: seq<real>)
    ensures |r| == |lines|
  {
    var d, total := DocumentDiscount(lines, discount), TotalPre(lines);
    if d == 0.0 || total == 0.0 then NetsPre(lines)
    else seq(|lines|, i requires 0 <= i < |lines| => NetAfter(NetPre(lines[i]), d, NetPre(lines[i]) / total))
  }

  method AllocatedLineNets(lines: seq<InvoiceLine>, discount: Option<Discount>)
    returns (nets: seq<real>, allowance: real)
    ensures nets == XmlNets(lines, discount)
    ensures allowance == DocumentDiscount(lines, discount)
  {
    var netsPre := seq(|lines|, i requires 0 <= i < |lines| => NetPre(lines[i]));
    assert netsPre == NetsPre(lines);
    var totalPre := Sum(netsPre);
    allowance := DiscountAmount(totalPre, discount);
    if allowance == 0.0 || totalPre == 0.0 {
      return netsPre, allowance;
    }
    nets := seq(|lines|, i requires 0 <= i < |lines| => NetAfter(netsPre[i], allowance, netsPre[i] / totalPre));
  }

  ghost predicate EqualNets(lines: seq<InvoiceLine>) {
    forall i :: 0 <= i < |lines| ==> NetsPre(lines)[i] * |lines| as real == TotalPre(lines)
  }

  /** When the builder spreads the document discount exactly as the engine does. */
  ghost predicate SameSpread(lines: seq<InvoiceLine>, discount: Option<Discount>) {
    TotalPre(lines) >= 0.0 || DocumentDiscount(lines, discount) == 0.0 || EqualNets(lines)
  }

  /** One line: the two formulas, given a non-zero discount and a negative total. */
  lemma {:induction false} NegativeShareIff(n: real, total: real, d: real, count: real)
    requires total < 0.0 && d != 0.0 && count > 0.0
    ensures NetAfter(n, d, n / total) == NetAfter(n, d, 1.0 / count) <==> n * count == total
  {
    var a, b := n / total, 1.0 / count;
    assert a * total == n && b * count == 1.0;
    if a == b {
      assert n * count == b * total * count == total * (b * count);
    }
    if n * count == total {
      assert total * (a * count) == total;
      assert a * count == 1.0;
      assert a == a * (b * count) == b * (a * count) == b;
    }
    assert d * a == d * b ==> d * (a - b) == 0.0;
  }

  /** With a negative total and something to spread, the two agree when every line is the mean. */
  lemma {:induction false} NegativeSpreadIff(lines: seq<InvoiceLine>, discount: Option<Discount>)
    requires lines != [] && TotalPre(lines) < 0.0 && DocumentDiscount(lines, discount) != 0.0
    ensures XmlNets(lines, discount) == AllocatedNets(lines, discount) <==> EqualNets(lines)
  {
    hide NetPre, DiscountAmount, NetAfter;
    var xml, nets := XmlNets(lines, discount), AllocatedNets(lines, discount);
    forall i | 0 <= i < |lines| ensures xml[i] == nets[i] <==> NetsPre(lines)[i] * |lines| as real == TotalPre(lines) {
      NegativeShareIff(NetPre(lines[i]), TotalPre(lines), DocumentDiscount(lines, discount), |lines| as real);
    }
    assert xml == nets <==> forall i :: 0 <= i < |lines| ==> xml[i] == nets[i];
  }

  /** The builder's docstring says it mirrors the money engine. Line by line it does so exactly
      when the pre-discount net is not negative, or there is no discount to spread, or all line
      nets are the same. */
  lemma {:induction false} SpreadsAgreeIff(lines: seq<InvoiceLine>, discount: Option<Discount>)
    requires lines != [] && ValidDiscount(discount)
    ensures XmlNets(lines, discount) == AllocatedNets(lines, discount) <==> SameSpread(lines, discount)
  {
    var xml, nets := XmlNets(lines, discount), AllocatedNets(lines, discount);
    var d, total := DocumentDiscount(lines, discount), TotalPre(lines);
    if d == 0.0 {
      assert forall i :: 0 <= i < |lines| ==> xml[i] == NetPre(lines[i]) == nets[i];
    } else if total > 0.0 {
      assert forall i :: 0 <= i < |lines| ==> xml[i] == nets[i];
    } else {
      assert total < 0.0;
      NegativeSpreadIff(lines, discount);
    }
  }

  // ------------------------------------------------------------------ document allowances

  datatype Allowance = Allowance(key: VatKey, amount: int)

  /** What each line absorbs of the document discount. */
  function Absorbed(lines: seq<InvoiceLine>, discount: Option<Discount>): (r: seq<real>)
    ensures |r| == |lines|
  {
    seq(|lines|, i requires 0 <= i < |lines| => NetsPre(lines)[i] - XmlNets(lines, discount)[i])
  }

  /** The groups' exact shares of the allowance, in the dict's order. */
  function GroupShares(lines: seq<InvoiceLine>, discount: Option<Discount>): (r: seq<real>)
    ensures |r| == |FirstOccurrences(KeysOf(lines))|
  {
    GroupSums(KeysOf(lines), Absorbed(lines, discount), FirstOccurrences(KeysOf(lines)))
  }

  /** `max(range(n), key=...)`: the first of the largest. */
  function MaxIndex(parts: seq<int>): (m: nat)
    requires parts != []
    ensures m < |parts|
    ensures forall j :: 0 <= j < |parts| ==> parts[j] <= parts[m]
    ensures forall j :: 0 <= j < m ==> parts[j] < parts[m]
  {
    if |parts| == 1 then 0
    else
      var n := |parts| - 1;
      var m := MaxIndex(parts[..n]);
      assert forall j :: 0 <= j < n ==> parts[j] == parts[..n][j];
      if parts[n] > parts[m] then n else m
  }

  /** The largest part absorbs whatever rounding left over. */
  function Patched(parts: seq<int>, total: int): (r: seq<int>)
    requires parts != []
    ensures |r| == |parts|
  {
    var residual := total - SumInt(parts);
    if residual == 0 then parts
    else var biggest := MaxIndex(parts); parts[biggest := parts[biggest] + residual]
  }

  lemma {:induction false} PatchedSum(parts: seq<int>, total: int)
    requires parts != []
    ensures SumInt(Patched(parts, total)) == total
  {
    var biggest := MaxIndex(parts);
    SumIntUpdate(parts, biggest, parts[biggest] + total - SumInt(parts));
  }

  /** The emission loop skips the amounts that are not positive. */
  function PositivePart(parts: seq<int>): int {
    if parts == [] then 0
    else
      var last := parts[|parts| - 1];
      PositivePart(parts[..|parts| - 1]) + if last > 0 then last else 0
  }

  function Emitted(keys: seq<VatKey>, parts: seq<int>): seq<Allowance>
    requires |keys| == |parts|
  {
    if parts == [] then []
    else
      var n := |parts| - 1;
      Emitted(keys[..n], parts[..n]) + if parts[n] > 0 then [Allowance(keys[n], parts[n])] else []
  }

  lemma {:induction false} PositivePartIff(parts: seq<int>)
    ensures PositivePart(parts) >= SumInt(parts)
    ensures PositivePart(parts) == SumInt(parts) <==> forall j :: 0 <= j < |parts| ==> parts[j] >= 0
  {
    if parts != [] {
      var n := |parts| - 1;
      PositivePartIff(parts[..n]);
      assert forall j :: 0 <= j < n ==> parts[..n][j] == parts[j];
    }
  }

  function AllowanceParts(lines: seq<InvoiceLine>, discount: Option<Discount>, cur: Currency): (r: seq<int>)
    requires lines != []
    ensures |r| == |FirstOccurrences(KeysOf(lines))|
  {
    Patched(Quantizes(GroupShares(lines, discount), cur), Quantize(DocumentDiscount(lines, discount), cur))
  }

  /** The AllowanceCharge elements of the document. */
  function AllowancesOf(lines: seq<InvoiceLine>, discount: Option<Discount>, cur: Currency): seq<Allowance> {
    if lines == [] || DocumentDiscount(lines, discount) <= 0.0 then []
    else Emitted(FirstOccurrences(KeysOf(lines)), AllowanceParts(lines, discount, cur))
  }

  function AllowanceTotalOf(lines: seq<InvoiceLine>, discount: Option<Discount>, cur: Currency): int {
    if lines == [] || DocumentDiscount(lines, discount) <= 0.0 then 0
    else PositivePart(AllowanceParts(lines, discount, cur))
  }

  function AmountsOfAllowances(allowances: seq<Allowance>): (r: seq<int>)
    ensures |r| == |allowances|
  {
    seq(|allowances|, i requires 0 <= i < |allowances| => allowances[i].amount)
  }

  lemma {:induction false} EmittedSum(keys: seq<VatKey>, parts: seq<int>)
    requires |keys| == |parts|
    ensures SumInt(AmountsOfAllowances(Emitted(keys, parts))) == PositivePart(parts)
  {
    if parts != [] {
      var n := |parts| - 1;
      EmittedSum(keys[..n], parts[..n]);
      if parts[n] > 0 {
        var before := Emitted(keys[..n], parts[..n]);
        assert AmountsOfAllowances(before + [Allowance(keys[n], parts[n])]) == AmountsOfAllowances(before) + [parts[n]];
        SumIntSnoc(AmountsOfAllowances(before), parts[n]);
      } else {
        assert Emitted(keys, parts) == Emitted(keys[..n], parts[..n]);
      }
    }
  }

  /** BR-CO-11 of EN 16931-1: the allowance total is the sum of the emitted amounts. Always. */
  lemma {:induction false} AllowanceTotalIsSumOfAllowances(lines: seq<InvoiceLine>, discount: Option<Discount>, cur: Currency)
    ensures AllowanceTotalOf(lines, discount, cur) == SumInt(AmountsOfAllowances(AllowancesOf(lines, discount, cur)))
  {
    if lines != [] && DocumentDiscount(lines, discount) > 0.0 {
      EmittedSum(FirstOccurrences(KeysOf(lines)), AllowanceParts(lines, discount, cur));
    }
  }

  /** A positive document discount means a positive total to spread it over. */
  lemma {:induction false} PositiveDiscountMeansPositiveTotal(lines: seq<InvoiceLine>, discount: Option<Discount>)
    requires ValidDiscount(discount) && DocumentDiscount(lines, discount) > 0.0
    ensures TotalPre(lines) > 0.0 && lines != []
  {
    PositiveDiscountMeansPositiveBase(TotalPre(lines), discount);
  }

  lemma {:induction false} PositiveDiscountMeansPositiveBase(base: real, discount: Option<Discount>)
    requires ValidDiscount(discount) && DiscountAmount(base, discount) > 0.0
    ensures base > 0.0
  {
    if discount.value.kind.PERCENTAGE? && base <= 0.0 {
      ProductNonNegative(-base, discount.value.amount);
      assert false;
    }
  }

  lemma {:induction false} AbsorbedSum(lines: seq<InvoiceLine>, discount: Option<Discount>)
    requires ValidDiscount(discount) && DocumentDiscount(lines, discount) > 0.0
    ensures Sum(Absorbed(lines, discount)) == DocumentDiscount(lines, discount)
  {
    hide AllocatedNets, XmlNets, NetsPre, DiscountAmount;
    PositiveDiscountMeansPositiveTotal(lines, discount);
    SpreadsAgreeIff(lines, discount);
    AllocationConserves(lines, discount);
    SumLinear(NetsPre(lines), XmlNets(lines, discount), -1.0, Absorbed(lines, discount));
  }

  /** Before rounding, the groups' shares are exactly the document discount. */
  lemma {:induction false} GroupSharesConserve(lines: seq<InvoiceLine>, discount: Option<Discount>)
    requires ValidDiscount(discount) && DocumentDiscount(lines, discount) > 0.0
    ensures Sum(GroupShares(lines, discount)) == DocumentDiscount(lines, discount)
  {
    AbsorbedSum(lines, discount);
    GroupingConserves(KeysOf(lines), Absorbed(lines, discount), FirstOccurrences(KeysOf(lines)));
  }

  /** With k groups the residual the builder has to place is at most (k + 1) / 2 units. */
  lemma {:induction false} ResidualBound(lines: seq<InvoiceLine>, discount: Option<Discount>, cur: Currency)
    requires ValidDiscount(discount) && DocumentDiscount(lines, discount) > 0.0
    ensures var parts := Quantizes(GroupShares(lines, discount), cur);
            var residual := Quantize(DocumentDiscount(lines, discount), cur) - SumInt(parts);
            -(|parts| + 1) <= 2 * residual <= |parts| + 1
  {
    GroupSharesConserve(lines, discount);
    QuantizesDrift(GroupShares(lines, discount), cur);
  }

  /** The comment above the split promises parts that sum exactly to the quantized document
      allowance. They do exactly when no patched part is negative: a negative part is skipped. */
  lemma {:induction false} AllowanceExactIff(lines: seq<InvoiceLine>, discount: Option<Discount>, cur: Currency)
    requires lines != [] && DocumentDiscount(lines, discount) > 0.0
    ensures var parts := AllowanceParts(lines, discount, cur);
            AllowanceTotalOf(lines, discount, cur) == Quantize(DocumentDiscount(lines, discount), cur)
            <==> forall j :: 0 <= j < |parts| ==> parts[j] >= 0
  {
    PatchedSum(Quantizes(GroupShares(lines, discount), cur), Quantize(DocumentDiscount(lines, discount), cur));
    PositivePartIff(AllowanceParts(lines, discount, cur));
  }

  /** Patching cannot turn the largest of k non-negative parts negative once the total reaches
      k (k + 2) / 2 units. */
  lemma {:induction false} PatchedNonNegative(exact: seq<real>, total: real)
    requires exact != [] && total == Sum(exact)
    requires forall j :: 0 <= j < |exact| ==> exact[j] >= 0.0
    requires 2.0 * total >= (|exact| * (|exact| + 2)) as real
    ensures forall j :: 0 <= j < |exact| ==> Patched(Rounds(exact), RoundHalfEven(total))[j] >= 0
  {
    var parts, k := Rounds(exact), |exact|;
    var m := MaxIndex(parts);
    forall j | 0 <= j < k ensures parts[j] >= 0 {
      RoundHalfEvenUnique(0.0, 0);
      RoundHalfEvenMonotone(0.0, exact[j]);
    }
    SumIntAtMost(parts, parts[m]);
    RoundsNearExact(exact);
    RoundsDrift(exact);
    var residual := RoundHalfEven(total) - SumInt(parts);
    NearBound(SumInt(parts), total, k, k * (k + 2));
    LargestSurvives(parts[m], residual, SumInt(parts), k);
  }

  lemma {:induction false} SumIntAtMost(s: seq<int>, bound: int)
    requires forall i :: 0 <= i < |s| ==> s[i] <= bound
    ensures SumInt(s) <= |s| * bound
  {
    if s != [] {
      SumIntAtMost(s[..|s| - 1], bound);
      assert (|s| - 1) * bound + bound == |s| * bound;
    }
  }

  lemma {:induction false} LargestSurvives(largest: int, residual: int, sum: int, k: nat)
    requires k > 0 && sum <= k * largest
    requires 2 * sum >= k * (k + 2) - k
    requires 2 * residual >= -(k + 1)
    ensures largest + residual >= 0
  {
    TimesNonNegative(k, 2 * residual + (k + 1));
    assert k * (2 * residual + (k + 1)) == k * (2 * residual) + k * (k + 1);
    assert k * (k + 2) - k == k * (k + 1);
    assert k * (2 * (largest + residual)) == 2 * (k * largest) + k * (2 * residual);
    NotNegative(k, 2 * (largest + residual));
  }

  lemma {:induction false} TimesNonNegative(k: nat, n: int)
    requires n >= 0
    ensures k * n >= 0
  {
  }

  lemma {:induction false} NotNegative(k: nat, n: int)
    requires k > 0 && k * n >= 0
    ensures n >= 0
  {
  }

  lemma {:induction false} NearBound(sum: int, total: real, k: nat, q: int)
    requires 2.0 * Abs(sum as real - total) <= k as real
    requires 2.0 * total >= q as real
    ensures 2 * sum >= q - k
  {
    assert (2 * sum) as real == 2.0 * sum as real;
    assert (q - k) as real == q as real - k as real;
  }

  /** Lines without a negative net, and an allowance of at least k (k + 2) / 2 units over k groups:
      every emitted amount is right and they add up to the quantized allowance. */
  lemma {:induction false} AllowanceExactWhenLarge(lines: seq<InvoiceLine>, discount: Option<Discount>, cur: Currency)
    requires ValidDiscount(discount) && DocumentDiscount(lines, discount) > 0.0
    requires forall i :: 0 <= i < |lines| ==> NetsPre(lines)[i] >= 0.0
    requires var k := |FirstOccurrences(KeysOf(lines))|;
             2.0 * InUnits(DocumentDiscount(lines, discount), cur) >= (k * (k + 2)) as real
    ensures AllowanceTotalOf(lines, discount, cur) == Quantize(DocumentDiscount(lines, discount), cur)
  {
    PositiveDiscountMeansPositiveTotal(lines, discount);
    GroupSharesConserve(lines, discount);
    GroupSharesNonNegative(lines, discount);
    PatchedSharesNonNegative(GroupShares(lines, discount), cur);
    AllowanceExactIff(lines, discount, cur);
  }

  lemma {:induction false} PatchedSharesNonNegative(shares: seq<real>, cur: Currency)
    requires shares != [] && forall j :: 0 <= j < |shares| ==> shares[j] >= 0.0
    requires 2.0 * InUnits(Sum(shares), cur) >= (|shares| * (|shares| + 2)) as real
    ensures forall j :: 0 <= j < |shares| ==> Patched(Quantizes(shares, cur), Quantize(Sum(shares), cur))[j] >= 0
  {
    var scaled := ScaledSum(shares, cur);
    PatchedNonNegative(scaled, Sum(scaled));
  }

  lemma {:induction false} GroupSharesNonNegative(lines: seq<InvoiceLine>, discount: Option<Discount>)
    requires ValidDiscount(discount) && DocumentDiscount(lines, discount) > 0.0
    requires forall i :: 0 <= i < |lines| ==> NetsPre(lines)[i] >= 0.0
    ensures forall j :: 0 <= j < |GroupShares(lines, discount)| ==> GroupShares(lines, discount)[j] >= 0.0
  {
    PositiveDiscountMeansPositiveTotal(lines, discount);
    var d, total, absorbed := DocumentDiscount(lines, discount), TotalPre(lines), Absorbed(lines, discount);
    forall i | 0 <= i < |lines| ensures absorbed[i] >= 0.0 {
      assert NetsPre(lines)[i] == NetPre(lines[i]) >= 0.0;
      assert XmlNets(lines, discount)[i] == NetAfter(NetPre(lines[i]), d, NetPre(lines[i]) / total);
      AbsorbedNonNegative(NetPre(lines[i]), d, total);
    }
    var shares, ks := GroupShares(lines, discount), FirstOccurrences(KeysOf(lines));
    forall j | 0 <= j < |shares| ensures shares[j] >= 0.0 {
      GroupSumNonNegative(KeysOf(lines), absorbed, ks[j]);
    }
  }

  lemma {:induction false} AbsorbedNonNegative(n: real, d: real, total: real)
    requires n >= 0.0 && d > 0.0 && total > 0.0
    ensures n - NetAfter(n, d, n / total) >= 0.0
  {
    ProductNonNegative(d, n / total);
  }

  // ------------------------------------------------------------------ build_invoice_ubl

  /** The monetary content of the document. */
  datatype UblAmounts = UblAmounts(
    allowances: seq<Allowance>,
    taxTotal: int,
    subtotals: seq<VatBucket>,
    lineExtension: int,
    taxExclusive: int,
    taxInclusive: int,
    allowanceTotal: Option<int>,
    payable: int,
    lineAmounts: seq<int>)

  function XmlVats(lines: seq<InvoiceLine>, discount: Option<Discount>): (r: seq<real>)
    ensures |r| == |lines|
  {
    VatsOn(lines, XmlNets(lines, discount))
  }

  function XmlKeys(lines: seq<InvoiceLine>): seq<VatKey> {
    FirstOccurrences(KeysOf(lines))
  }

  /** `sum(g["tax"] for g in groups.values())`. */
  function XmlTotalTax(lines: seq<InvoiceLine>, discount: Option<Discount>): real {
    Sum(GroupSums(KeysOf(lines), XmlVats(lines, discount), XmlKeys(lines)))
  }

  function SubtotalsOf(lines: seq<InvoiceLine>, discount: Option<Discount>, cur: Currency): (r: seq<VatBucket>)
    ensures |r| == |XmlKeys(lines)|
  {
    var ks := XmlKeys(lines);
    seq(|ks|, j requires 0 <= j < |ks| => SubtotalAt(lines, discount, cur, ks[j]))
  }

  function SubtotalAt(lines: seq<InvoiceLine>, discount: Option<Discount>, cur: Currency, k: VatKey): VatBucket {
    BucketFrom(k, Accumulated(GroupSum(KeysOf(lines), XmlNets(lines, discount), k),
                              GroupSum(KeysOf(lines), XmlVats(lines, discount), k)), cur)
  }

  function AmountsOf(lines: seq<InvoiceLine>, discount: Option<Discount>, cur: Currency): UblAmounts {
    var allowance, tax := DocumentDiscount(lines, discount), XmlTotalTax(lines, discount);
    var exclusive := TotalPre(lines) - allowance;
    var emitted := AllowanceTotalOf(lines, discount, cur);
    UblAmounts(
      AllowancesOf(lines, discount, cur),
      Quantize(tax, cur),
      SubtotalsOf(lines, discount, cur),
      Quantize(TotalPre(lines), cur),
      Quantize(exclusive, cur),
      Quantize(exclusive + tax, cur),
      if emitted > 0 then Some(emitted) else None,
      Quantize(exclusive + tax, cur),
      Quantizes(NetsPre(lines), cur))
  }

  /** The amounts of `build_invoice_ubl`, in the order the code computes them. */
  method BuildInvoiceUbl(lines: seq<InvoiceLine>, discount: Option<Discount>, cur: Currency)
    returns (r: UblAmounts)
    ensures r == AmountsOf(lines, discount, cur)
  {
    hide *;
    var nets, allowance := AllocatedLineNets(lines, discount);
    var netsPre := seq(|lines|, i requires 0 <= i < |lines| => NetPre(lines[i]));
    NetsListed(lines, netsPre);
    var charges, emitted := DocumentAllowances(lines, discount, cur, netsPre, nets, allowance);
    var totalTax, subtotals := TaxSubtotals(lines, discount, cur, nets);
    var lineExtension := Sum(netsPre);
    var taxExclusive := lineExtension - allowance;
    r := UblAmounts(
      charges,
      Quantize(totalTax, cur),
      subtotals,
      Quantize(lineExtension, cur),
      Quantize(taxExclusive, cur),
      Quantize(taxExclusive + totalTax, cur),
      if emitted > 0 then Some(emitted) else None,
      Quantize(taxExclusive + totalTax, cur),
      Quantizes(netsPre, cur));
    NineAmounts(lines, discount, cur);
  }

  lemma {:induction false} NetsListed(lines: seq<InvoiceLine>, nets: seq<real>)
    requires |nets| == |lines| && forall i :: 0 <= i < |lines| ==> nets[i] == NetPre(lines[i])
    ensures nets == NetsPre(lines) && Sum(nets) == TotalPre(lines)
  {
    hide NetPre;
    assert nets == NetsPre(lines);
    hide NetsPre;
  }

  lemma {:induction false} NineAmounts(lines: seq<InvoiceLine>, discount: Option<Discount>, cur: Currency)
    ensures var exclusive, tax := TotalPre(lines) - DocumentDiscount(lines, discount), XmlTotalTax(lines, discount);
            var emitted := AllowanceTotalOf(lines, discount, cur);
            AmountsOf(lines, discount, cur)
            == UblAmounts(AllowancesOf(lines, discount, cur), Quantize(tax, cur), SubtotalsOf(lines, discount, cur),
                          Quantize(TotalPre(lines), cur), Quantize(exclusive, cur), Quantize(exclusive + tax, cur),
                          if emitted > 0 then Some(emitted) else None, Quantize(exclusive + tax, cur), Quantizes(NetsPre(lines), cur))
  {
    hide Quantize, DocumentDiscount, XmlTotalTax, AllowancesOf, AllowanceTotalOf, SubtotalsOf, TotalPre, NetsPre, Quantizes;
  }

  /** One AllowanceCharge per VAT group. */
  method DocumentAllowances(lines: seq<InvoiceLine>, discount: Option<Discount>, cur: Currency,
                            netsPre: seq<real>, nets: seq<real>, allowance: real)
    returns (charges: seq<Allowance>, emitted: int)
    requires netsPre == NetsPre(lines) && nets == XmlNets(lines, discount)
    requires allowance == DocumentDiscount(lines, discount)
    ensures charges == AllowancesOf(lines, discount, cur)
    ensures emitted == AllowanceTotalOf(lines, discount, cur)
  {
    hide Quantize, DocumentDiscount, NetPre, XmlNets, SumInt, MaxIndex, Emitted, PositivePart, GroupSum;
    charges, emitted := [], 0;
    if allowance <= 0.0 || lines == [] {
      return;
    }
    var order, byGroup := AllowanceByGroup(lines, discount, netsPre, nets);
    var amounts := seq(|order|, j requires 0 <= j < |order| && order[j] in byGroup => byGroup[order[j]]);
    assert amounts == GroupShares(lines, discount);
    var groupItems := Quantizes(amounts, cur);
    var residual := Quantize(allowance, cur) - SumInt(groupItems);
    if residual != 0 {
      var biggest := MaxIndex(groupItems);
      groupItems := groupItems[biggest := groupItems[biggest] + residual];
    }
    assert groupItems == AllowanceParts(lines, discount, cur);
    charges, emitted := EmitAllowances(order, groupItems);
  }

  /** The emission loop. */
  method EmitAllowances(order: seq<VatKey>, groupItems: seq<int>) returns (charges: seq<Allowance>, emitted: int)
    requires |order| == |groupItems|
    ensures charges == Emitted(order, groupItems)
    ensures emitted == PositivePart(groupItems)
  {
    charges, emitted := [], 0;
    for j := 0 to |groupItems|
      invariant charges == Emitted(order[..j], groupItems[..j])
      invariant emitted == PositivePart(groupItems[..j])
    {
      assert groupItems[..j + 1][..j] == groupItems[..j] && order[..j + 1][..j] == order[..j];
      if groupItems[j] <= 0 {
        continue;
      }
      emitted := emitted + groupItems[j];
      charges := charges + [Allowance(order[j], groupItems[j])];
    }
    assert groupItems[..|groupItems|] == groupItems && order[..|order|] == order;
  }

  /** The dict and its insertion order after some pairs. */
  ghost predicate GroupedSoFar(order: seq<VatKey>, byGroup: map<VatKey, real>, keys: seq<VatKey>, vals: seq<real>)
    requires |keys| == |vals|
  {
    && order == FirstOccurrences(keys)
    && byGroup.Keys == (set k | k in keys)
    && forall k :: k in byGroup ==> byGroup[k] == GroupSum(keys, vals, k)
  }

  lemma {:induction false} NothingGrouped(keys: seq<VatKey>, vals: seq<real>)
    requires |keys| == |vals|
    ensures GroupedSoFar([], map[], keys[..0], vals[..0])
  {
  }

  lemma {:induction false} GroupOneMore(order: seq<VatKey>, byGroup: map<VatKey, real>, keys: seq<VatKey>, vals: seq<real>, key: VatKey, x: real)
    requires |keys| == |vals| && GroupedSoFar(order, byGroup, keys, vals)
    ensures GroupedSoFar(if key in byGroup then order else order + [key],
                         byGroup[key := (if key in byGroup then byGroup[key] else 0.0) + x], keys + [key], vals + [x])
  {
    hide GroupSum, FirstOccurrences;
    GroupStep(keys, vals, key, x);
    FirstOccurrencesSnoc(keys, key);
  }

  /** `doc_allowance_by_group`, with its insertion order. */
  method AllowanceByGroup(lines: seq<InvoiceLine>, discount: Option<Discount>, netsPre: seq<real>, nets: seq<real>)
    returns (order: seq<VatKey>, byGroup: map<VatKey, real>)
    requires netsPre == NetsPre(lines) && nets == XmlNets(lines, discount)
    ensures order == XmlKeys(lines)
    ensures byGroup.Keys == (set k | k in KeysOf(lines))
    ensures forall k :: k in byGroup ==> byGroup[k] == GroupSum(KeysOf(lines), Absorbed(lines, discount), k)
  {
    hide NetsPre, XmlNets, GroupSum, FirstOccurrences, Absorbed, GroupedSoFar;
    AbsorbedIs(lines, discount);
    ghost var keys, absorbed := KeysOf(lines), Absorbed(lines, discount);
    order, byGroup := [], map[];
    NothingGrouped(keys, absorbed);
    for i := 0 to |lines|
      invariant GroupedSoFar(order, byGroup, keys[..i], absorbed[..i])
    {
      var key := KeyOf(lines[i]);
      TakeOneMore(keys, absorbed, i);
      GroupOneMore(order, byGroup, keys[..i], absorbed[..i], key, absorbed[i]);
      assert keys[..i + 1] == keys[..i] + [key] && absorbed[..i + 1] == absorbed[..i] + [absorbed[i]];
      if key !in byGroup {
        order := order + [key];
      }
      byGroup := byGroup[key := (if key in byGroup then byGroup[key] else 0.0) + (netsPre[i] - nets[i])];
    }
    assert keys[..|lines|] == keys && absorbed[..|lines|] == absorbed;
    GroupedMeans(order, byGroup, keys, absorbed);
  }

  lemma {:induction false} AbsorbedIs(lines: seq<InvoiceLine>, discount: Option<Discount>)
    ensures forall i :: 0 <= i < |lines| ==> Absorbed(lines, discount)[i] == NetsPre(lines)[i] - XmlNets(lines, discount)[i]
  {
    hide NetPre, XmlNets;
  }

  lemma {:induction false} GroupedMeans(order: seq<VatKey>, byGroup: map<VatKey, real>, keys: seq<VatKey>, vals: seq<real>)
    requires |keys| == |vals| && GroupedSoFar(order, byGroup, keys, vals)
    ensures order == FirstOccurrences(keys) && byGroup.Keys == (set k | k in keys)
    ensures forall k :: k in byGroup ==> byGroup[k] == GroupSum(keys, vals, k)
  {
  }

  lemma {:induction false} GroupTaxes(keys: seq<VatKey>, nets: seq<real>, vats: seq<real>, groups: map<VatKey, Accumulated>, taxes: seq<real>)
    requires |keys| == |nets| == |vats| && Accumulates(groups, keys, nets, vats)
    requires var order := FirstOccurrences(keys);
             |taxes| == |order| && forall j :: 0 <= j < |order| ==> order[j] in groups && taxes[j] == groups[order[j]].vat
    ensures taxes == GroupSums(keys, vats, FirstOccurrences(keys))
  {
    hide FirstOccurrences;
  }

  lemma {:induction false} GroupSubtotals(lines: seq<InvoiceLine>, discount: Option<Discount>, cur: Currency, groups: map<VatKey, Accumulated>,
                                          subtotals: seq<VatBucket>)
    requires Accumulates(groups, KeysOf(lines), XmlNets(lines, discount), XmlVats(lines, discount))
    requires var order := XmlKeys(lines);
             |subtotals| == |order|
             && forall j :: 0 <= j < |order| ==> order[j] in groups && subtotals[j] == BucketFrom(order[j], groups[order[j]], cur)
    ensures subtotals == SubtotalsOf(lines, discount, cur)
  {
    hide XmlNets, XmlVats, XmlKeys, KeysOf, BucketFrom;
  }

  lemma {:induction false} EveryKeyGrouped(keys: seq<VatKey>, nets: seq<real>, vats: seq<real>, groups: map<VatKey, Accumulated>)
    requires |keys| == |nets| == |vats| && Accumulates(groups, keys, nets, vats)
    ensures forall j :: 0 <= j < |FirstOccurrences(keys)| ==> FirstOccurrences(keys)[j] in groups
  {
    assert forall j :: 0 <= j < |FirstOccurrences(keys)| ==> FirstOccurrences(keys)[j] in FirstOccurrences(keys);
  }

  /** The TaxTotal block: its own accumulating loop over the allocated nets. */
  method TaxSubtotals(lines: seq<InvoiceLine>, discount: Option<Discount>, cur: Currency, nets: seq<real>)
    returns (totalTax: real, subtotals: seq<VatBucket>)
    requires nets == XmlNets(lines, discount)
    ensures totalTax == XmlTotalTax(lines, discount)
    ensures subtotals == SubtotalsOf(lines, discount, cur)
  {
    hide VatOn, VatsOn, Accumulates, Accumulate, FirstOccurrences, BucketFrom, SubtotalsOf, XmlNets, GroupSums, Sum;
    ghost var keys, vats := KeysOf(lines), VatsOn(lines, nets);
    VatTerms(lines, nets);
    var order: seq<VatKey>, groups: map<VatKey, Accumulated> := [], map[];
    NothingAccumulated();
    for i := 0 to |lines|
      invariant order == FirstOccurrences(keys[..i])
      invariant Accumulates(groups, keys[..i], nets[..i], vats[..i])
    {
      AccumulateStep(groups, keys, nets, vats, i);
      var key := KeyOf(lines[i]);
      if key !in groups {
        order := order + [key];
      }
      groups := Accumulate(groups, key, nets[i], VatOn(nets[i], lines[i].rate));
    }
    assert keys[..|lines|] == keys && nets[..|lines|] == nets && vats[..|lines|] == vats;
    EveryKeyGrouped(keys, nets, vats, groups);
    var taxes := seq(|order|, j requires 0 <= j < |order| && order[j] in groups => groups[order[j]].vat);
    GroupTaxes(keys, nets, vats, groups, taxes);
    totalTax := Sum(taxes);
    subtotals := seq(|order|, j requires 0 <= j < |order| && order[j] in groups =>
      BucketFrom(order[j], groups[order[j]], cur));
    GroupSubtotals(lines, discount, cur, groups, subtotals);
  }

  lemma {:induction false} VatTerms(lines: seq<InvoiceLine>, nets: seq<real>)
    requires |nets| == |lines|
    ensures forall i :: 0 <= i < |lines| ==> VatsOn(lines, nets)[i] == VatOn(nets[i], lines[i].rate)
  {
    hide VatOn;
  }

  // ------------------------------------------------------------------ agreement with the engine

  lemma {:induction false} XmlTotalTaxUngrouped(lines: seq<InvoiceLine>, discount: Option<Discount>)
    ensures XmlTotalTax(lines, discount) == Sum(XmlVats(lines, discount))
  {
    GroupingConserves(KeysOf(lines), XmlVats(lines, discount), XmlKeys(lines));
  }

  /** Whatever the discounts, the document's TaxExclusiveAmount is the engine's net. */
  lemma {:induction false} TaxExclusiveAgrees(lines: seq<InvoiceLine>, discount: Option<Discount>, cur: Currency)
    requires lines != []
    ensures AmountsOf(lines, discount, cur).taxExclusive == TotalsOf(lines, discount, cur).net
  {
    hide *;
    NineAmounts(lines, discount, cur);
    SixTotals(lines, discount, cur);
    NetOf(lines, discount);
  }

  lemma {:induction false} PreSum(lines: seq<InvoiceLine>)
    ensures TotalPre(lines) == Sum(NetsPre(lines)) && |NetsPre(lines)| == |lines|
  {
  }

  lemma {:induction false} NetOf(lines: seq<InvoiceLine>, discount: Option<Discount>)
    ensures NetExact(lines, discount) == TotalPre(lines) - DocumentDiscount(lines, discount)
  {
    hide TotalPre, DocumentDiscount;
  }

  // What the two spreads do to the tax.

  function RateSum(lines: seq<InvoiceLine>): real {
    Sum(RatesOf(lines))
  }

  /** Each line's net times its rate. */
  function Weighted(lines: seq<InvoiceLine>): (r: seq<real>)
    ensures |r| == |lines|
  {
    seq(|lines|, i requires 0 <= i < |lines| => NetPre(lines[i]) * lines[i].rate)
  }

  function WeightedSum(lines: seq<InvoiceLine>): real {
    Sum(Weighted(lines))
  }

  /** When both documents carry the same tax: the spreads agree, or the mean of the rates weighted by the
      nets is their plain mean. */
  ghost predicate SameTax(lines: seq<InvoiceLine>, discount: Option<Discount>) {
    TotalPre(lines) >= 0.0 || DocumentDiscount(lines, discount) == 0.0
    || TotalPre(lines) * RateSum(lines) == |lines| as real * WeightedSum(lines)
  }

  lemma {:induction false} VatOfEvenShare(n: real, d: real, count: real, rate: real)
    requires count > 0.0
    ensures VatOn(NetAfter(n, d, 1.0 / count), rate) == n * rate * 0.01 + (-d / (100.0 * count)) * rate
  {
  }

  lemma {:induction false} VatOfNetShare(n: real, d: real, total: real, rate: real)
    requires total < 0.0
    ensures VatOn(NetAfter(n, d, n / total), rate) == n * rate * 0.01 + (-d / (100.0 * total)) * (n * rate)
  {
    assert d * (n / total) * rate == (d / total) * (n * rate);
  }

  function Hundredths(lines: seq<InvoiceLine>): (r: seq<real>)
    ensures |r| == |lines|
  {
    seq(|lines|, i requires 0 <= i < |lines| => Weighted(lines)[i] * 0.01)
  }

  lemma {:induction false} LineTerms(lines: seq<InvoiceLine>, i: nat)
    requires i < |lines|
    ensures RatesOf(lines)[i] == lines[i].rate && Weighted(lines)[i] == NetPre(lines[i]) * lines[i].rate
    ensures Hundredths(lines)[i] == NetPre(lines[i]) * lines[i].rate * 0.01
  {
    hide NetPre;
  }

  lemma {:induction false} EvenVat(lines: seq<InvoiceLine>, discount: Option<Discount>, i: nat)
    requires TotalPre(lines) < 0.0 && i < |lines|
    ensures VatsOn(lines, AllocatedNets(lines, discount))[i]
         == Hundredths(lines)[i] + (-DocumentDiscount(lines, discount) / (100.0 * |lines| as real)) * RatesOf(lines)[i]
  {
    var vat := VatsOn(lines, AllocatedNets(lines, discount))[i];
    hide NetPre, DiscountAmount, NetAfter, VatOn, Sum, TotalPre, DocumentDiscount;
    assert vat == VatOn(NetAfter(NetPre(lines[i]), DocumentDiscount(lines, discount), 1.0 / |lines| as real), lines[i].rate);
    LineTerms(lines, i);
    hide *;
    VatOfEvenShare(NetPre(lines[i]), DocumentDiscount(lines, discount), |lines| as real, lines[i].rate);
  }

  lemma {:induction false} NetVat(lines: seq<InvoiceLine>, discount: Option<Discount>, i: nat)
    requires TotalPre(lines) < 0.0 && DocumentDiscount(lines, discount) != 0.0 && i < |lines|
    ensures XmlVats(lines, discount)[i]
         == Hundredths(lines)[i] + (-DocumentDiscount(lines, discount) / (100.0 * TotalPre(lines))) * Weighted(lines)[i]
  {
    var vat := XmlVats(lines, discount)[i];
    hide NetPre, DiscountAmount, NetAfter, VatOn, Sum, TotalPre, DocumentDiscount;
    assert vat == VatOn(NetAfter(NetPre(lines[i]), DocumentDiscount(lines, discount), NetPre(lines[i]) / TotalPre(lines)), lines[i].rate);
    LineTerms(lines, i);
    hide *;
    VatOfNetShare(NetPre(lines[i]), DocumentDiscount(lines, discount), TotalPre(lines), lines[i].rate);
  }

  lemma {:induction false} EvenSums(lines: seq<InvoiceLine>, discount: Option<Discount>)
    ensures VatExact(lines, discount) == Sum(VatsOn(lines, AllocatedNets(lines, discount))) && RateSum(lines) == Sum(RatesOf(lines))
  {
    hide Sum, VatsOn, AllocatedNets, RatesOf;
  }

  /** On a negative net the engine spreads in equal parts. */
  lemma {:induction false} EvenTax(lines: seq<InvoiceLine>, discount: Option<Discount>)
    requires lines != [] && TotalPre(lines) < 0.0
    ensures VatExact(lines, discount)
         == Sum(Hundredths(lines)) + (-DocumentDiscount(lines, discount) / (100.0 * |lines| as real)) * RateSum(lines)
  {
    hide *;
    var n, d, vats := |lines| as real, DocumentDiscount(lines, discount), VatsOn(lines, AllocatedNets(lines, discount));
    var c := -d / (100.0 * n);
    forall i | 0 <= i < |lines| ensures vats[i] == Hundredths(lines)[i] + c * RatesOf(lines)[i] {
      EvenVat(lines, discount, i);
    }
    SumLinear(Hundredths(lines), RatesOf(lines), c, vats);
    EvenSums(lines, discount);
  }

  /** And the builder by net. */
  lemma {:induction false} NetTax(lines: seq<InvoiceLine>, discount: Option<Discount>)
    requires lines != [] && TotalPre(lines) < 0.0 && DocumentDiscount(lines, discount) != 0.0
    ensures Sum(XmlVats(lines, discount))
         == Sum(Hundredths(lines)) + (-DocumentDiscount(lines, discount) / (100.0 * TotalPre(lines))) * WeightedSum(lines)
  {
    hide NetPre, DiscountAmount, NetAfter, VatOn, Sum, TotalPre, DocumentDiscount, XmlNets, VatsOn, Weighted, Hundredths;
    var t, d, vats := TotalPre(lines), DocumentDiscount(lines, discount), XmlVats(lines, discount);
    var c := -d / (100.0 * t);
    forall i | 0 <= i < |lines| ensures vats[i] == Hundredths(lines)[i] + c * Weighted(lines)[i] {
      NetVat(lines, discount, i);
    }
    SumLinear(Hundredths(lines), Weighted(lines), c, vats);
  }

  lemma {:induction false} SameQuotient(d: real, n: real, t: real, r: real, w: real)
    requires d != 0.0 && n > 0.0 && t < 0.0
    ensures (-d / (100.0 * n)) * r == (-d / (100.0 * t)) * w <==> t * r == n * w
  {
    var x, y := (-d / (100.0 * n)) * r, (-d / (100.0 * t)) * w;
    assert x * (100.0 * n) == -d * r && y * (100.0 * t) == -d * w;
    assert x * (100.0 * n) * t == -d * (t * r) && y * (100.0 * t) * n == -d * (n * w);
    Cancelled(x, y, 100.0 * n * t);
    Cancelled(t * r, n * w, -d);
  }

  lemma {:induction false} Cancelled(x: real, y: real, c: real)
    requires c != 0.0
    ensures x * c == y * c <==> x == y
  {
    assert (x - y) * c == x * c - y * c;
  }

  /** The exact condition for the tax: whatever the lines and discounts, the XML's tax is the frozen tax,
      before rounding, if and only if the net before the document discount is not negative, or there is
      nothing to spread, or the rates' weighted mean is their plain mean. */
  lemma {:induction false} TaxAgreesIff(lines: seq<InvoiceLine>, discount: Option<Discount>)
    requires lines != [] && ValidDiscount(discount)
    ensures XmlTotalTax(lines, discount) == VatExact(lines, discount) <==> SameTax(lines, discount)
  {
    XmlTotalTaxUngrouped(lines, discount);
    var n, t, d := |lines| as real, TotalPre(lines), DocumentDiscount(lines, discount);
    hide XmlTotalTax, RateSum, WeightedSum, TotalPre, DocumentDiscount, XmlNets, AllocatedNets;
    if t >= 0.0 || d == 0.0 {
      SpreadsAgreeIff(lines, discount);
    } else {
      EvenTax(lines, discount);
      NetTax(lines, discount);
      SameQuotient(d, n, t, RateSum(lines), WeightedSum(lines));
    }
  }

  /** Under that condition the document's TaxAmount, TaxInclusiveAmount and PayableAmount are the engine's
      total VAT and total; and when the spreads agree, its tax subtotals are the VAT buckets, in another
      order. */
  lemma {:induction false} XmlAgreesWithTotals(lines: seq<InvoiceLine>, discount: Option<Discount>, cur: Currency)
    requires lines != [] && ValidDiscount(discount) && SameTax(lines, discount)
    ensures var x, t := AmountsOf(lines, discount, cur), TotalsOf(lines, discount, cur);
            x.taxExclusive == t.net && x.taxTotal == t.totalVat && x.taxInclusive == x.payable == t.totalTtc
    ensures SameSpread(lines, discount) ==>
      multiset(AmountsOf(lines, discount, cur).subtotals) == multiset(BucketsOf(lines, discount, cur))
  {
    hide *;
    TotalsAgree(lines, discount, cur);
    if SameSpread(lines, discount) {
      SpreadsAgreeIff(lines, discount);
      SubtotalsArePermutedBuckets(lines, discount, cur);
    }
  }

  lemma {:induction false} TotalsAgree(lines: seq<InvoiceLine>, discount: Option<Discount>, cur: Currency)
    requires lines != [] && ValidDiscount(discount) && SameTax(lines, discount)
    ensures var x, t := AmountsOf(lines, discount, cur), TotalsOf(lines, discount, cur);
            x.taxExclusive == t.net && x.taxTotal == t.totalVat && x.taxInclusive == x.payable == t.totalTtc
  {
    hide VatExact, XmlTotalTax, TotalPre, DocumentDiscount, Quantize, SubtotalsOf, AllowancesOf, AllowanceTotalOf, SameTax,
         XmlNets, AllocatedNets, BreakdownOf, Grosses, LineDiscounts, QuantizeEach, NetsPre, Quantizes;
    TaxAgreesIff(lines, discount);
  }

  /** Spreading alike is enough for the tax. */
  lemma {:induction false} SameSpreadSameTax(lines: seq<InvoiceLine>, discount: Option<Discount>)
    requires lines != [] && ValidDiscount(discount) && SameSpread(lines, discount)
    ensures SameTax(lines, discount)
  {
    hide XmlTotalTax, SameTax, SameSpread, XmlNets, AllocatedNets;
    XmlTotalTaxUngrouped(lines, discount);
    SpreadsAgreeIff(lines, discount);
    TaxAgreesIff(lines, discount);
  }

  lemma {:induction false} SubtotalsArePermutedBuckets(lines: seq<InvoiceLine>, discount: Option<Discount>, cur: Currency)
    requires lines != [] && XmlNets(lines, discount) == AllocatedNets(lines, discount)
    ensures multiset(AmountsOf(lines, discount, cur).subtotals) == multiset(BucketsOf(lines, discount, cur))
  {
    hide Quantize, DocumentDiscount, NetPre, XmlNets, AllocatedNets, BucketFrom;
    var ks, sorted := XmlKeys(lines), BucketKeys(lines);
    var f := k => BucketAt(lines, discount, cur, k);
    assert forall k :: SubtotalAt(lines, discount, cur, k) == BucketAt(lines, discount, cur, k);
    assert SubtotalsOf(lines, discount, cur) == Mapped(f, ks);
    assert BucketsOf(lines, discount, cur) == Mapped(f, sorted);
    MappedPermutation(f, ks, sorted);
  }

  /** A subtotal at rate zero carries no tax (rules BR-Z-09, BR-E-09, BR-AE-09, BR-IC-09, BR-G-09),
      however negative or discounted its base is. */
  lemma {:induction false} ZeroRateSubtotalCarriesNoTax(lines: seq<InvoiceLine>, discount: Option<Discount>, cur: Currency, j: nat)
    requires j < |SubtotalsOf(lines, discount, cur)|
    requires SubtotalsOf(lines, discount, cur)[j].key.rate == 0.0
    ensures SubtotalsOf(lines, discount, cur)[j].vatAmount == 0
  {
    var k := XmlKeys(lines)[j];
    var vats := XmlVats(lines, discount);
    forall i | 0 <= i < |lines| && KeysOf(lines)[i] == k ensures vats[i] == 0.0 {
      assert lines[i].rate == 0.0;
    }
    GroupSumConstant(KeysOf(lines), vats, k);
    QuantizeZero(cur);
  }

  /** BR-CO-13 and BR-CO-15 up to rounding: each total is rounded by itself, so the identities
      between them hold within one unit once the allowance is exact. */
  lemma {:induction false} MonetaryTotalsDrift(lines: seq<InvoiceLine>, discount: Option<Discount>, cur: Currency)
    ensures var x := AmountsOf(lines, discount, cur);
            && -1 <= x.lineExtension - x.taxExclusive - Quantize(DocumentDiscount(lines, discount), cur) <= 1
            && -1 <= x.payable - x.taxExclusive - x.taxTotal <= 1
            && -(|lines| + 1) <= 2 * (SumInt(x.lineAmounts) - x.lineExtension) <= |lines| + 1
  {
    hide *;
    NineAmounts(lines, discount, cur);
    PreSum(lines);
    var d, tax := DocumentDiscount(lines, discount), XmlTotalTax(lines, discount);
    var exclusive := TotalPre(lines) - d;
    assert exclusive + d == TotalPre(lines);
    QuantizePairDrift(exclusive, d, cur);
    QuantizePairDrift(exclusive, tax, cur);
    QuantizesDrift(NetsPre(lines), cur);
  }

  // ------------------------------------------------------------------ where it goes wrong

  lemma {:induction false} SumOfTwo(a: real, b: real)
    ensures Sum([a, b]) == a + b
  {
    SumSnoc([], a);
    SumSnoc([a], b);
    assert [] + [a] == [a] && [a] + [b] == [a, b];
  }

  /** A first line discounted by more than its gross: 100 less 150 %, next to a line of 10. */
  ghost predicate OverDiscounted(lines: seq<InvoiceLine>) {
    && |lines| == 2
    && Gross(lines[0]) == 100.0 && LineDiscount(lines[0]) == 150.0 && lines[0].rate == 0.0
    && Gross(lines[1]) == 10.0 && LineDiscount(lines[1]) == 0.0 && lines[1].rate == 21.0
  }

  lemma {:induction false} OverDiscountedExists() returns (lines: seq<InvoiceLine>)
    ensures ValidLines(lines) && OverDiscounted(lines) && forall line :: line in lines ==> line.category.Standard?
  {
    var half := Some(Discount(PERCENTAGE, 150.0, None));
    var a := InvoiceLine(1, "a", 1.0, 100.0, None, Services, Standard, 0.0, half);
    var b := InvoiceLine(2, "b", 1.0, 10.0, None, Services, Standard, 21.0, None);
    lines := [a, b];
    assert Gross(a) == 100.0 && LineDiscount(a) == 150.0;
    assert Gross(b) == 10.0 && LineDiscount(b) == 0.0;
  }

  ghost predicate FiveOff(d: Option<Discount>) {
    d.Some? && d.value.kind.FIXED? && d.value.amount == 5.0
  }

  lemma {:induction false} OverDiscountedNets(lines: seq<InvoiceLine>, d: Option<Discount>)
    requires OverDiscounted(lines) && FiveOff(d)
    ensures TotalPre(lines) == -40.0 && DocumentDiscount(lines, d) == -40.0
    ensures AllocatedNets(lines, d) == [-30.0, 30.0]
    ensures XmlNets(lines, d) == [0.0, 0.0]
  {
    hide Gross, LineDiscount;
    assert NetsPre(lines) == [-50.0, 10.0];
    SumOfTwo(-50.0, 10.0);
    assert Share(lines, 0) == 0.5 && Share(lines, 1) == 0.5;
  }

  lemma {:induction false} OverDiscountedSums(lines: seq<InvoiceLine>, d: Option<Discount>)
    requires OverDiscounted(lines) && FiveOff(d)
    ensures Sum(Grosses(lines)) == 110.0 && Sum(LineDiscounts(lines)) == 150.0
    ensures NetExact(lines, d) == 0.0 && VatExact(lines, d) == 6.3 && Sum(XmlVats(lines, d)) == 0.0
  {
    hide Gross, LineDiscount, NetPre, DiscountAmount, Share, NetAfter;
    OverDiscountedNets(lines, d);
    assert Grosses(lines) == [100.0, 10.0] && LineDiscounts(lines) == [150.0, 0.0];
    SumOfTwo(100.0, 10.0);
    SumOfTwo(150.0, 0.0);
    assert VatsOn(lines, [-30.0, 30.0]) == [0.0, 6.3];
    SumOfTwo(0.0, 6.3);
    assert VatsOn(lines, [0.0, 0.0]) == [0.0, 0.0];
    SumOfTwo(0.0, 0.0);
  }

  /** The frozen invoice says 6.30 of VAT and 6.30 to pay; its XML says 0.00 and 0.00. Every total
      is non-negative, so the domain model accepts the draft. */
  lemma {:induction false} XmlDisagreesWhenNetNegative(lines: seq<InvoiceLine>, d: Option<Discount>)
    requires OverDiscounted(lines) && FiveOff(d)
    ensures var t := TotalsOf(lines, d, EUR);
            t.subtotal == 11000 && t.totalDiscount == 11000 && t.net == 0 && t.totalVat == 630 && t.totalTtc == 630
    ensures var x := AmountsOf(lines, d, EUR);
            x.taxTotal == 0 && x.payable == 0
  {
    hide Gross, LineDiscount, NetPre, DiscountAmount, Share, NetAfter, AllocatedNets, XmlNets, RoundHalfEven;
    OverDiscountedNets(lines, d);
    OverDiscountedSums(lines, d);
    XmlTotalTaxUngrouped(lines, d);
    RoundHalfEvenUnique(630.0, 630);
    RoundHalfEvenUnique(11000.0, 11000);
    RoundHalfEvenUnique(0.0, 0);
  }

  lemma {:induction false} SumOfFour(a: real, b: real, c: real, d: real)
    ensures Sum([a, b, c, d]) == a + b + c + d
  {
    SumOfTwo(a, b);
    SumSnoc([a, b], c);
    SumSnoc([a, b, c], d);
    assert [a, b] + [c] == [a, b, c] && [a, b, c] + [d] == [a, b, c, d];
  }

  lemma {:induction false} SumIntOfFour(a: int, b: int, c: int, d: int)
    ensures SumInt([a, b, c, d]) == a + b + c + d
  {
    SumIntSnoc([], a);
    SumIntSnoc([a], b);
    SumIntSnoc([a, b], c);
    SumIntSnoc([a, b, c], d);
    assert [] + [a] == [a] && [a] + [b] == [a, b] && [a, b] + [c] == [a, b, c] && [a, b, c] + [d] == [a, b, c, d];
  }

  /** Four lines of one euro each, under four different VAT keys. */
  ghost predicate FourEuros(lines: seq<InvoiceLine>) {
    && |lines| == 4
    && (forall i :: 0 <= i < 4 ==> NetsPre(lines)[i] == 1.0)
    && Distinct(KeysOf(lines))
  }

  /** Any line of one euro, at the four Belgian rates. */
  lemma {:induction false} FourEurosExist(line: InvoiceLine) returns (lines: seq<InvoiceLine>)
    requires ValidLine(line) && NetPre(line) == 1.0
    ensures ValidLines(lines) && FourEuros(lines)
  {
    lines := [line.(rate := 0.0), line.(rate := 6.0), line.(rate := 12.0), line.(rate := 21.0)];
    forall i | 0 <= i < 4 ensures NetPre(lines[i]) == 1.0 {
      SameNet(line, lines[i].rate);
    }
    var ks := KeysOf(lines);
    assert ks[0].rate == 0.0 && ks[1].rate == 6.0 && ks[2].rate == 12.0 && ks[3].rate == 21.0;
  }

  lemma {:induction false} SameNet(line: InvoiceLine, rate: real)
    ensures NetPre(line.(rate := rate)) == NetPre(line)
  {
  }

  /** Six tenths of a percent off. */
  ghost predicate SixPerMille(d: Option<Discount>) {
    d.Some? && d.value.kind.PERCENTAGE? && d.value.amount == 0.6
  }

  lemma {:induction false} DistinctKeysStay(ks: seq<VatKey>)
    requires Distinct(ks)
    ensures FirstOccurrences(ks) == ks
  {
    if ks != [] {
      var n := |ks| - 1;
      DistinctKeysStay(ks[..n]);
      assert ks == ks[..n] + [ks[n]];
    }
  }

  lemma {:induction false} DistinctGroupIsItsValue(ks: seq<VatKey>, vals: seq<real>, j: nat)
    requires j < |ks| == |vals| && Distinct(ks)
    ensures GroupSum(ks, vals, ks[j]) == vals[j]
  {
    var n := |ks| - 1;
    if j == n {
      GroupSumAbsent(ks[..n], vals[..n], ks[n]);
    } else {
      DistinctGroupIsItsValue(ks[..n], vals[..n], j);
    }
  }

  lemma {:induction false} FourEurosShares(lines: seq<InvoiceLine>, d: Option<Discount>)
    requires FourEuros(lines) && SixPerMille(d)
    ensures DocumentDiscount(lines, d) == 0.024
    ensures |GroupShares(lines, d)| == 4 && forall j :: 0 <= j < 4 ==> GroupShares(lines, d)[j] == 0.006
  {
    hide Gross, LineDiscount, NetPre;
    var ks, absorbed := KeysOf(lines), Absorbed(lines, d);
    assert NetsPre(lines) == [1.0, 1.0, 1.0, 1.0];
    SumOfFour(1.0, 1.0, 1.0, 1.0);
    forall i | 0 <= i < 4 ensures absorbed[i] == 0.006 {
      assert NetsPre(lines)[i] == NetPre(lines[i]) == 1.0;
      assert XmlNets(lines, d)[i] == NetAfter(1.0, 0.024, 1.0 / 4.0);
    }
    DistinctKeysStay(ks);
    forall j | 0 <= j < 4 ensures GroupShares(lines, d)[j] == 0.006 {
      DistinctGroupIsItsValue(ks, absorbed, j);
    }
  }

  /** The allowance is 2.4 cents, quantized 2; its four shares round up to 1 cent each, the patch
      makes the first -1, it is skipped, and the document shows allowances of 3 cents. */
  lemma {:induction false} SmallAllowanceIsOverstated(lines: seq<InvoiceLine>, d: Option<Discount>)
    requires FourEuros(lines) && SixPerMille(d)
    ensures Quantize(DocumentDiscount(lines, d), EUR) == 2
    ensures AllowanceTotalOf(lines, d, EUR) == 3
  {
    hide Gross, LineDiscount, NetPre, RoundHalfEven, XmlNets, GroupShares;
    FourEurosShares(lines, d);
    RoundHalfEvenUnique(0.6, 1);
    RoundHalfEvenUnique(2.4, 2);
    assert Quantizes(GroupShares(lines, d), EUR) == [1, 1, 1, 1];
    PatchingFourOnes([1, 1, 1, 1]);
  }

  lemma {:induction false} PatchingFourOnes(parts: seq<int>)
    requires parts == [1, 1, 1, 1]
    ensures PositivePart(Patched(parts, 2)) == 3
  {
    SumIntOfFour(1, 1, 1, 1);
    var first, m := parts[0], MaxIndex(parts);
    assert m == 0;
    var patched := Patched(parts, 2);
    assert patched == [-1, 1, 1, 1];
    assert patched[..3] == [-1, 1, 1] && [-1, 1, 1][..2] == [-1, 1] && [-1, 1][..1] == [-1];
    assert PositivePart(patched[..3][..2][..1]) == 0;
    assert PositivePart(patched[..3][..2]) == 1;
    assert PositivePart(patched[..3]) == 2;
  }
}
