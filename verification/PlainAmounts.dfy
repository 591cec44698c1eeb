// What the documents of core/rules/currency_math.py and core/einvoicing/ubl_builder.py say, in the fields of
// their lines: quantities, prices, categories and rates.
module PlainAmounts {
  import opened Common
  import opened Grouping
  import opened Money
  import opened Lines
  import opened CurrencyMath
  import opened UblBuilder

  // ------------------------------------------------------------------ amounts and their roundings

  /** How many of its smallest units the currency's unit has. */
  function UnitsIn(cur: Currency): real {
    if cur == JPY then 1.0 else 100.0
  }

  /** A whole number of smallest units, within half a unit of an exact amount. */
  predicate Near(n: int, exact: real, cur: Currency) {
    -1.0 <= 2.0 * (n as real - exact * UnitsIn(cur)) <= 1.0
  }

  lemma {:induction false} QuantizeIsNear(exact: real, cur: Currency)
    ensures Near(Quantize(exact, cur), exact, cur)
  {
    var n, x := Quantize(exact, cur), exact * UnitsIn(cur);
    assert InUnits(exact, cur) == x;
    assert Abs(n as real - x) <= 0.5;
  }

  // ------------------------------------------------------------------ sums over lines

  /** Quantity times unit price, over all lines. */
  ghost function Worth(lines: seq<InvoiceLine>): real {
    if lines == [] then 0.0
    else
      var line := lines[|lines| - 1];
      Worth(lines[..|lines| - 1]) + line.quantity * line.unitPrice
  }

  /** What the line discounts take off. */
  ghost function TakenOff(lines: seq<InvoiceLine>): real {
    if lines == [] then 0.0
    else
      var line := lines[|lines| - 1];
      TakenOff(lines[..|lines| - 1]) + DiscountAmount(line.quantity * line.unitPrice, line.discount)
  }

  /** The part of some values, one for each line, that belongs to one category and rate. */
  ghost function Under(lines: seq<InvoiceLine>, vals: seq<real>, category: VatCategory, rate: real): real
    requires |vals| == |lines|
  {
    if lines == [] then 0.0
    else
      var n := |lines| - 1;
      Under(lines[..n], vals[..n], category, rate)
      + if lines[n].category == category && lines[n].rate == rate then vals[n] else 0.0
  }

  lemma {:induction false} WorthIsGross(lines: seq<InvoiceLine>)
    ensures Sum(Grosses(lines)) == Worth(lines)
    ensures Sum(LineDiscounts(lines)) == TakenOff(lines)
  {
    hide DiscountAmount;
    if lines != [] {
      var n := |lines| - 1;
      WorthIsGross(lines[..n]);
      assert Grosses(lines)[..n] == Grosses(lines[..n]);
      assert LineDiscounts(lines)[..n] == LineDiscounts(lines[..n]);
    }
  }

  lemma {:induction false} UnderIsGroup(lines: seq<InvoiceLine>, vals: seq<real>, category: VatCategory, rate: real)
    requires |vals| == |lines|
    ensures GroupSum(KeysOf(lines), vals, VatKey(category, rate)) == Under(lines, vals, category, rate)
  {
    if lines != [] {
      var n := |lines| - 1;
      UnderIsGroup(lines[..n], vals[..n], category, rate);
      assert KeysOf(lines)[..n] == KeysOf(lines[..n]);
    }
  }

  // ------------------------------------------------------------------ totals

  /** The totals in the lines' own fields: each is within half a smallest unit of quantity times price, less the
      line discounts, less the document discount on what is left. */
  lemma {:induction false} TotalsInFields(lines: seq<InvoiceLine>, discount: Option<Discount>, cur: Currency)
    ensures var t, off := TotalsOf(lines, discount, cur), TakenOff(lines);
            var document := DiscountAmount(Worth(lines) - off, discount);
            lines != [] ==>
              && Near(t.subtotal, Worth(lines), cur)
              && Near(t.totalDiscount, off + document, cur)
              && Near(t.net, Worth(lines) - off - document, cur)
  {
    hide *;
    if lines != [] {
      WorthIsGross(lines);
      NetsPreSum(lines);
      DocumentOff(lines, discount);
      AllocationConserves(lines, discount);
      SixTotals(lines, discount, cur);
      QuantizeIsNear(Sum(Grosses(lines)), cur);
      QuantizeIsNear(Sum(LineDiscounts(lines)) + DocumentDiscount(lines, discount), cur);
      QuantizeIsNear(NetExact(lines, discount), cur);
    }
  }

  lemma {:induction false} DocumentOff(lines: seq<InvoiceLine>, discount: Option<Discount>)
    ensures DocumentDiscount(lines, discount) == DiscountAmount(TotalPre(lines), discount)
  {
  }

  lemma {:induction false} WorthOfOne(line: InvoiceLine)
    ensures Worth([line]) == line.quantity * line.unitPrice
  {
    assert [line][..0] == [];
  }

  lemma {:induction false} Split(q: real, rest: real, price: real)
    ensures q * price + rest * price == (q + rest) * price
  {
  }

  /** Two lines at one price are as good as one of the summed quantity, whatever surrounds them. */
  lemma {:induction false} SplitLine(front: seq<InvoiceLine>, line: InvoiceLine, q: real, back: seq<InvoiceLine>)
    ensures Worth(front + [line] + back)
         == Worth(front + [line.(quantity := q), line.(quantity := line.quantity - q)] + back)
  {
    hide *;
    var a, b := line.(quantity := q), line.(quantity := line.quantity - q);
    WorthAppend(front + [line], back);
    WorthAppend(front, [line]);
    WorthAppend(front + [a, b], back);
    WorthAppend(front, [a, b]);
    WorthAppend([a], [b]);
    assert [a] + [b] == [a, b];
    WorthOfOne(line);
    WorthOfOne(a);
    WorthOfOne(b);
    Split(q, line.quantity - q, line.unitPrice);
  }

  lemma {:induction false} WorthAppend(a: seq<InvoiceLine>, b: seq<InvoiceLine>)
    ensures Worth(a + b) == Worth(a) + Worth(b)
  {
    if b == [] {
      assert a + b == a;
    } else {
      assert (a + b)[..|a + b| - 1] == a + b[..|b| - 1];
      WorthAppend(a, b[..|b| - 1]);
    }
  }

  /** So splitting a line leaves the subtotal, to the unit. */
  lemma {:induction false} SplittingKeepsSubtotal(front: seq<InvoiceLine>, line: InvoiceLine, q: real, back: seq<InvoiceLine>,
                                                  discount: Option<Discount>, cur: Currency)
    ensures TotalsOf(front + [line] + back, discount, cur).subtotal
         == TotalsOf(front + [line.(quantity := q), line.(quantity := line.quantity - q)] + back, discount, cur).subtotal
  {
    var one := front + [line] + back;
    var two := front + [line.(quantity := q), line.(quantity := line.quantity - q)] + back;
    hide *;
    SplitLine(front, line, q, back);
    WorthIsGross(one);
    WorthIsGross(two);
    SixTotals(one, discount, cur);
    SixTotals(two, discount, cur);
  }

  /** How the document discount is spread: while the net is positive every line keeps the same fraction of its
      own net; otherwise every line takes the same part. */
  lemma {:induction false} NetsInProportion(lines: seq<InvoiceLine>, discount: Option<Discount>, i: nat)
    requires i < |lines|
    ensures var total, document := TotalPre(lines), DiscountAmount(TotalPre(lines), discount);
            var before, after := NetsPre(lines)[i], AllocatedNets(lines, discount)[i];
            if total > 0.0 then after * total == before * (total - document)
            else (before - after) * |lines| as real == document
  {
    hide *;
    var total, document := TotalPre(lines), DiscountAmount(TotalPre(lines), discount);
    NetAllocated(lines, discount, i);
    if total > 0.0 {
      InProportion(NetsPre(lines)[i], document, total);
    } else {
      InEqualParts(NetsPre(lines)[i], document, |lines| as real);
    }
  }

  lemma {:induction false} NetAllocated(lines: seq<InvoiceLine>, discount: Option<Discount>, i: nat)
    requires i < |lines|
    ensures var total, document, net := TotalPre(lines), DiscountAmount(TotalPre(lines), discount), NetsPre(lines)[i];
            AllocatedNets(lines, discount)[i]
            == if total > 0.0 then net - document * (net / total) else net - document * (1.0 / |lines| as real)
  {
    hide DiscountAmount, NetPre, TotalPre;
  }

  lemma {:induction false} InProportion(n: real, d: real, total: real)
    requires total != 0.0
    ensures (n - d * (n / total)) * total == n * (total - d)
  {
    assert n / total * total == n;
  }

  lemma {:induction false} InEqualParts(n: real, d: real, count: real)
    requires count > 0.0
    ensures (n - (n - d * (1.0 / count))) * count == d
  {
    assert 1.0 / count * count == 1.0;
  }

  /** The net before the document discount of one line. */
  lemma {:induction false} NetBefore(lines: seq<InvoiceLine>, i: nat)
    requires i < |lines|
    ensures var worth := lines[i].quantity * lines[i].unitPrice;
            NetsPre(lines)[i] == worth - DiscountAmount(worth, lines[i].discount)
  {
    var worth := lines[i].quantity * lines[i].unitPrice;
    assert Gross(lines[i]) == worth;
    hide Gross, DiscountAmount;
    assert LineDiscount(lines[i]) == DiscountAmount(worth, lines[i].discount);
  }

  // ------------------------------------------------------------------ tax

  /** Net times rate in per cent, over all lines. */
  ghost function TaxOn(lines: seq<InvoiceLine>, nets: seq<real>): real
    requires |nets| == |lines|
  {
    if lines == [] then 0.0
    else
      var n := |lines| - 1;
      TaxOn(lines[..n], nets[..n]) + nets[n] * lines[n].rate / 100.0
  }

  lemma {:induction false} TaxIsVat(lines: seq<InvoiceLine>, nets: seq<real>)
    requires |nets| == |lines|
    ensures Sum(VatsOn(lines, nets)) == TaxOn(lines, nets)
  {
    if lines != [] {
      var n := |lines| - 1;
      TaxIsVat(lines[..n], nets[..n]);
      assert VatsOn(lines, nets)[..n] == VatsOn(lines[..n], nets[..n]);
      assert VatsOn(lines, nets)[n] == nets[n] * lines[n].rate / 100.0;
      hide VatsOn, VatOn;
    }
  }

  /** The tax of the invoice, and its total including tax. */
  lemma {:induction false} TaxInFields(lines: seq<InvoiceLine>, discount: Option<Discount>, cur: Currency)
    requires lines != []
    ensures var t, nets := TotalsOf(lines, discount, cur), AllocatedNets(lines, discount);
            && Near(t.totalVat, TaxOn(lines, nets), cur)
            && Near(t.totalTtc, Sum(nets) + TaxOn(lines, nets), cur)
  {
    hide *;
    AllocationConserves(lines, discount);
    VatOfLines(lines, discount);
    TaxIsVat(lines, AllocatedNets(lines, discount));
    SixTotals(lines, discount, cur);
    QuantizeIsNear(VatExact(lines, discount), cur);
    QuantizeIsNear(NetExact(lines, discount) + VatExact(lines, discount), cur);
  }

  lemma {:induction false} XmlTaxIs(lines: seq<InvoiceLine>, discount: Option<Discount>)
    ensures XmlTotalTax(lines, discount) == TaxOn(lines, XmlNets(lines, discount))
  {
    XmlTotalTaxUngrouped(lines, discount);
    XmlVatsAre(lines, discount);
    hide *;
    TaxIsVat(lines, XmlNets(lines, discount));
  }

  lemma {:induction false} XmlVatsAre(lines: seq<InvoiceLine>, discount: Option<Discount>)
    ensures XmlVats(lines, discount) == VatsOn(lines, XmlNets(lines, discount))
  {
    hide VatsOn, XmlNets;
  }

  /** The tax of the XML document. */
  lemma {:induction false} XmlTaxInFields(lines: seq<InvoiceLine>, discount: Option<Discount>, cur: Currency)
    ensures Near(AmountsOf(lines, discount, cur).taxTotal, TaxOn(lines, XmlNets(lines, discount)), cur)
  {
    hide *;
    XmlTaxIs(lines, discount);
    NineAmounts(lines, discount, cur);
    QuantizeIsNear(XmlTotalTax(lines, discount), cur);
  }

  lemma {:induction false} OneTax(net: real, more: real, rate: real)
    ensures net * rate / 100.0 + more * rate / 100.0 == (net + more) * rate / 100.0
  {
  }

  lemma {:induction false} UnderVat(lines: seq<InvoiceLine>, nets: seq<real>, category: VatCategory, rate: real)
    requires |nets| == |lines|
    ensures Under(lines, VatsOn(lines, nets), category, rate) == Under(lines, nets, category, rate) * rate / 100.0
  {
    if lines != [] {
      var n := |lines| - 1;
      UnderVat(lines[..n], nets[..n], category, rate);
      assert VatsOn(lines, nets)[..n] == VatsOn(lines[..n], nets[..n]);
      assert VatsOn(lines, nets)[n] == nets[n] * lines[n].rate / 100.0;
      OneTax(Under(lines[..n], nets[..n], category, rate), nets[n], rate);
      hide VatsOn, VatOn;
    }
  }

  // ------------------------------------------------------------------ VAT groups

  /** One group for each category and rate of the lines, and for no other. */
  ghost predicate GroupedByRate(keys: seq<VatKey>, lines: seq<InvoiceLine>) {
    && Distinct(keys)
    && (forall i :: 0 <= i < |lines| ==> VatKey(lines[i].category, lines[i].rate) in keys)
    && (forall k :: k in keys ==> exists i :: 0 <= i < |lines| && lines[i].category == k.category && lines[i].rate == k.rate)
  }

  lemma {:induction false} KeysGrouped(keys: seq<VatKey>, lines: seq<InvoiceLine>)
    requires Distinct(keys) && forall k :: k in keys <==> k in KeysOf(lines)
    ensures GroupedByRate(keys, lines)
  {
    forall i | 0 <= i < |lines| ensures VatKey(lines[i].category, lines[i].rate) in keys {
      assert KeysOf(lines)[i] == VatKey(lines[i].category, lines[i].rate);
    }
    forall k | k in keys ensures exists i :: 0 <= i < |lines| && lines[i].category == k.category && lines[i].rate == k.rate {
      var i :| 0 <= i < |lines| && KeysOf(lines)[i] == k;
      assert lines[i].category == k.category && lines[i].rate == k.rate;
    }
  }

  function Percent(amount: real, rate: real): real {
    amount * rate / 100.0
  }

  /** A bucket states the net of the lines of its category and rate, and the tax of that rate on it. */
  ghost predicate StatesGroup(b: VatBucket, lines: seq<InvoiceLine>, nets: seq<real>, cur: Currency)
    requires |nets| == |lines|
  {
    var net := Under(lines, nets, b.key.category, b.key.rate);
    Near(b.taxableBase, net, cur) && Near(b.vatAmount, Percent(net, b.key.rate), cur)
  }

  lemma {:induction false} StatesFrom(b: VatBucket, lines: seq<InvoiceLine>, nets: seq<real>, cur: Currency, net: real, tax: real)
    requires |nets| == |lines| && net == Under(lines, nets, b.key.category, b.key.rate) && tax == Percent(net, b.key.rate)
    requires Near(b.taxableBase, net, cur) && Near(b.vatAmount, tax, cur)
    ensures StatesGroup(b, lines, nets, cur)
  {
    hide Near, Under, Percent;
  }

  lemma {:induction false} BucketStates(lines: seq<InvoiceLine>, nets: seq<real>, k: VatKey, cur: Currency)
    requires |nets| == |lines|
    ensures StatesGroup(BucketFrom(k, Accumulated(GroupSum(KeysOf(lines), nets, k), GroupSum(KeysOf(lines), VatsOn(lines, nets), k)), cur),
                        lines, nets, cur)
  {
    hide *;
    var net, tax := GroupSum(KeysOf(lines), nets, k), GroupSum(KeysOf(lines), VatsOn(lines, nets), k);
    UnderIsGroup(lines, nets, k.category, k.rate);
    UnderIsGroup(lines, VatsOn(lines, nets), k.category, k.rate);
    UnderVat(lines, nets, k.category, k.rate);
    PercentIs(Under(lines, nets, k.category, k.rate), k.rate);
    QuantizeIsNear(net, cur);
    QuantizeIsNear(tax, cur);
    RoundedBucket(k, net, tax, cur);
    StatesFrom(BucketFrom(k, Accumulated(net, tax), cur), lines, nets, cur, net, tax);
  }

  lemma {:induction false} PercentIs(amount: real, rate: real)
    ensures Percent(amount, rate) == amount * rate / 100.0
  {
  }

  lemma {:induction false} RoundedBucket(k: VatKey, net: real, tax: real, cur: Currency)
    ensures BucketFrom(k, Accumulated(net, tax), cur) == VatBucket(k, Quantize(net, cur), Quantize(tax, cur))
  {
  }

  function KeysOfBuckets(bs: seq<VatBucket>): (r: seq<VatKey>)
    ensures |r| == |bs|
  {
    seq(|bs|, j requires 0 <= j < |bs| => bs[j].key)
  }

  /** The VAT buckets of an invoice: one for each category and rate of its lines, stating their allocated net and
      the tax on it. */
  lemma {:induction false} BucketsInFields(lines: seq<InvoiceLine>, discount: Option<Discount>, cur: Currency)
    ensures GroupedByRate(KeysOfBuckets(BucketsOf(lines, discount, cur)), lines)
    ensures forall b :: b in BucketsOf(lines, discount, cur) ==> StatesGroup(b, lines, AllocatedNets(lines, discount), cur)
  {
    var bs := BucketsOf(lines, discount, cur);
    assert KeysOfBuckets(bs) == BucketKeys(lines);
    BucketKeysCover(lines);
    KeysGrouped(BucketKeys(lines), lines);
    forall b | b in bs ensures StatesGroup(b, lines, AllocatedNets(lines, discount), cur) {
      var j :| 0 <= j < |bs| && bs[j] == b;
      assert b == BucketAt(lines, discount, cur, BucketKeys(lines)[j]);
      hide BucketKeys, AllocatedNets, BucketFrom, StatesGroup, KeysOf, VatsOn, GroupSum;
      BucketStates(lines, AllocatedNets(lines, discount), BucketKeys(lines)[j], cur);
    }
  }

  lemma {:induction false} XmlKeysGrouped(lines: seq<InvoiceLine>)
    ensures Distinct(XmlKeys(lines)) && GroupedByRate(XmlKeys(lines), lines)
    ensures XmlKeys(lines) == FirstOccurrences(KeysOf(lines))
  {
    KeysGrouped(XmlKeys(lines), lines);
  }

  lemma {:induction false} SubtotalKeys(lines: seq<InvoiceLine>, discount: Option<Discount>, cur: Currency)
    ensures KeysOfBuckets(SubtotalsOf(lines, discount, cur)) == XmlKeys(lines)
    ensures |SubtotalsOf(lines, discount, cur)| == |XmlKeys(lines)|
    ensures forall j :: 0 <= j < |XmlKeys(lines)| ==>
      SubtotalsOf(lines, discount, cur)[j]
      == BucketFrom(XmlKeys(lines)[j], Accumulated(GroupSum(KeysOf(lines), XmlNets(lines, discount), XmlKeys(lines)[j]),
                                                   GroupSum(KeysOf(lines), VatsOn(lines, XmlNets(lines, discount)), XmlKeys(lines)[j])), cur)
  {
    hide GroupSum, KeysOf, XmlNets, VatsOn;
  }

  /** The same of the tax subtotals of the XML document, with the nets of the builder. */
  lemma {:induction false} SubtotalsInFields(lines: seq<InvoiceLine>, discount: Option<Discount>, cur: Currency)
    ensures GroupedByRate(KeysOfBuckets(AmountsOf(lines, discount, cur).subtotals), lines)
    ensures forall b :: b in AmountsOf(lines, discount, cur).subtotals ==> StatesGroup(b, lines, XmlNets(lines, discount), cur)
  {
    hide *;
    NineAmounts(lines, discount, cur);
    var bs := SubtotalsOf(lines, discount, cur);
    SubtotalKeys(lines, discount, cur);
    XmlKeysGrouped(lines);
    forall b | b in bs ensures StatesGroup(b, lines, XmlNets(lines, discount), cur) {
      var j :| 0 <= j < |bs| && bs[j] == b;
      BucketStates(lines, XmlNets(lines, discount), XmlKeys(lines)[j], cur);
    }
  }

  // ------------------------------------------------------------------ document allowances

  /** What the charges of a document take off under one category and rate. */
  ghost function ChargedUnder(charges: seq<Allowance>, k: VatKey): int {
    if charges == [] then 0
    else ChargedUnder(charges[..|charges| - 1], k) + if charges[|charges| - 1].key == k then charges[|charges| - 1].amount else 0
  }

  function KeysOfCharges(charges: seq<Allowance>): (r: seq<VatKey>)
    ensures |r| == |charges|
  {
    seq(|charges|, j requires 0 <= j < |charges| => charges[j].key)
  }

  lemma {:induction false} ChargedSnoc(charges: seq<Allowance>, c: Allowance, k: VatKey)
    ensures ChargedUnder(charges + [c], k) == ChargedUnder(charges, k) + if c.key == k then c.amount else 0
    ensures KeysOfCharges(charges + [c]) == KeysOfCharges(charges) + [c.key]
  {
    assert (charges + [c])[..|charges|] == charges;
  }

  lemma {:induction false} EmittedLast(keys: seq<VatKey>, parts: seq<int>)
    requires |keys| == |parts| && parts != []
    ensures var n := |parts| - 1;
            Emitted(keys, parts) == Emitted(keys[..n], parts[..n]) + if parts[n] > 0 then [Allowance(keys[n], parts[n])] else []
  {
  }

  lemma {:induction false} NothingCharged(k: VatKey)
    ensures Emitted([], []) == [] && KeysOfCharges([]) == [] && ChargedUnder([], k) == 0
  {
  }

  lemma {:induction false} ChargedLast(keys: seq<VatKey>, parts: seq<int>, k: VatKey)
    requires |keys| == |parts| && parts != []
    ensures var n := |parts| - 1;
            var before := Emitted(keys[..n], parts[..n]);
            && ChargedUnder(Emitted(keys, parts), k) == ChargedUnder(before, k) + (if parts[n] > 0 && keys[n] == k then parts[n] else 0)
            && KeysOfCharges(Emitted(keys, parts)) == KeysOfCharges(before) + if parts[n] > 0 then [keys[n]] else []
  {
    hide *;
    var n := |parts| - 1;
    EmittedLast(keys, parts);
    if parts[n] > 0 {
      ChargedSnoc(Emitted(keys[..n], parts[..n]), Allowance(keys[n], parts[n]), k);
    } else {
      assert Emitted(keys[..n], parts[..n]) + [] == Emitted(keys[..n], parts[..n]);
    }
  }

  lemma {:induction false} ChargedElsewhere(keys: seq<VatKey>, parts: seq<int>, k: VatKey)
    requires |keys| == |parts| && k !in keys
    ensures ChargedUnder(Emitted(keys, parts), k) == 0 && k !in KeysOfCharges(Emitted(keys, parts))
  {
    hide *;
    if parts == [] {
      NothingCharged(k);
    } else {
      ChargedElsewhere(keys[..|parts| - 1], parts[..|parts| - 1], k);
      ChargedLast(keys, parts, k);
    }
  }

  lemma {:induction false} ChargedAt(keys: seq<VatKey>, parts: seq<int>, j: nat)
    requires |keys| == |parts| && Distinct(keys) && j < |keys|
    ensures ChargedUnder(Emitted(keys, parts), keys[j]) == if parts[j] > 0 then parts[j] else 0
  {
    var n := |parts| - 1;
    assert keys[..n] == keys[..|keys| - 1] && keys[n] !in keys[..n] && Distinct(keys[..n]);
    assert j < n ==> keys[j] != keys[n];
    hide *;
    ChargedLast(keys, parts, keys[j]);
    if j < n {
      ChargedAt(keys[..n], parts[..n], j);
    } else {
      ChargedElsewhere(keys[..n], parts[..n], keys[n]);
    }
  }

  lemma {:induction false} ChargedOnce(keys: seq<VatKey>, parts: seq<int>)
    requires |keys| == |parts| && Distinct(keys)
    ensures Distinct(KeysOfCharges(Emitted(keys, parts)))
  {
    if parts == [] {
      NothingCharged(VatKey(Standard, 0.0));
    } else {
      var n := |parts| - 1;
      assert keys[n] !in keys[..n];
      hide KeysOfCharges, Emitted, ChargedUnder;
      ChargedOnce(keys[..n], parts[..n]);
      ChargedLast(keys, parts, keys[n]);
      ChargedElsewhere(keys[..n], parts[..n], keys[n]);
    }
  }

  lemma {:induction false} ChargesOf(lines: seq<InvoiceLine>, discount: Option<Discount>, cur: Currency)
    ensures AmountsOf(lines, discount, cur).allowances ==
      if lines == [] || DocumentDiscount(lines, discount) <= 0.0 then []
      else Emitted(XmlKeys(lines), AllowanceParts(lines, discount, cur))
  {
    NineAmounts(lines, discount, cur);
    hide AmountsOf, XmlTotalTax, AllowanceParts, DocumentDiscount, Emitted;
  }

  /** The charges of the document: at most one for each category and rate; under every group of the lines the
      group's patched part when that is positive, and nothing otherwise; and nothing under any other. */
  lemma {:induction false} ChargesByGroup(lines: seq<InvoiceLine>, discount: Option<Discount>, cur: Currency)
    ensures var charges := AmountsOf(lines, discount, cur).allowances;
            && Distinct(KeysOfCharges(charges))
            && (forall k :: k !in XmlKeys(lines) ==> ChargedUnder(charges, k) == 0)
            && (lines != [] && DocumentDiscount(lines, discount) > 0.0 ==>
                  |AllowanceParts(lines, discount, cur)| == |XmlKeys(lines)| && forall j :: 0 <= j < |XmlKeys(lines)| ==>
                    var part := AllowanceParts(lines, discount, cur)[j];
                    ChargedUnder(charges, XmlKeys(lines)[j]) == if part > 0 then part else 0)
            && (DocumentDiscount(lines, discount) <= 0.0 ==> charges == [])
    ensures GroupedByRate(XmlKeys(lines), lines)
  {
    XmlKeysGrouped(lines);
    hide AmountsOf, XmlKeys, AllowanceParts, DocumentDiscount, Emitted, ChargedUnder, KeysOfCharges, GroupedByRate;
    ChargesOf(lines, discount, cur);
    var ks := XmlKeys(lines);
    if lines != [] && DocumentDiscount(lines, discount) > 0.0 {
      var parts := AllowanceParts(lines, discount, cur);
      ChargedOnce(ks, parts);
      forall j | 0 <= j < |ks| ensures ChargedUnder(Emitted(ks, parts), ks[j]) == if parts[j] > 0 then parts[j] else 0 {
        ChargedAt(ks, parts, j);
      }
      forall k | k !in ks ensures ChargedUnder(Emitted(ks, parts), k) == 0 {
        ChargedElsewhere(ks, parts, k);
      }
    } else {
      forall k ensures ChargedUnder([], k) == 0 && KeysOfCharges([]) == [] {
        NothingCharged(k);
      }
    }
  }

  lemma {:induction false} OneAbsorbed(lines: seq<InvoiceLine>, discount: Option<Discount>, i: nat)
    requires i < |lines| && DocumentDiscount(lines, discount) > 0.0 && TotalPre(lines) > 0.0
    ensures Absorbed(lines, discount)[i] * TotalPre(lines) == DocumentDiscount(lines, discount) * NetsPre(lines)[i]
  {
    var d, total, net := DocumentDiscount(lines, discount), TotalPre(lines), NetsPre(lines)[i];
    hide *;
    AbsorbedAt(lines, discount, i);
    XmlNetAt(lines, discount, i);
    TakesItsPart(net, d, total);
  }

  lemma {:induction false} AbsorbedAt(lines: seq<InvoiceLine>, discount: Option<Discount>, i: nat)
    requires i < |lines|
    ensures Absorbed(lines, discount)[i] == NetsPre(lines)[i] - XmlNets(lines, discount)[i]
  {
    hide NetsPre, XmlNets;
  }

  lemma {:induction false} XmlNetAt(lines: seq<InvoiceLine>, discount: Option<Discount>, i: nat)
    requires i < |lines| && DocumentDiscount(lines, discount) != 0.0 && TotalPre(lines) != 0.0
    ensures var net := NetsPre(lines)[i];
            XmlNets(lines, discount)[i] == net - DocumentDiscount(lines, discount) * (net / TotalPre(lines))
  {
    hide NetPre, TotalPre, DocumentDiscount;
  }

  lemma {:induction false} TakesItsPart(n: real, d: real, total: real)
    requires total > 0.0
    ensures (n - (n - d * (n / total))) * total == d * n
  {
    assert n / total * total == n;
  }

  lemma {:induction false} UnderScaled(lines: seq<InvoiceLine>, a: seq<real>, b: seq<real>, x: real, y: real, category: VatCategory, rate: real)
    requires |a| == |b| == |lines| && forall i :: 0 <= i < |lines| ==> a[i] * x == y * b[i]
    ensures Under(lines, a, category, rate) * x == y * Under(lines, b, category, rate)
  {
    if lines != [] {
      var n := |lines| - 1;
      UnderScaled(lines[..n], a[..n], b[..n], x, y, category, rate);
      var u, v := Under(lines[..n], a[..n], category, rate), Under(lines[..n], b[..n], category, rate);
      assert (u + a[n]) * x == u * x + a[n] * x && y * (v + b[n]) == y * v + y * b[n];
    }
  }

  /** A group's share of the document discount is to the discount as the group's net is to the net. */
  lemma {:induction false} SharesInProportion(lines: seq<InvoiceLine>, discount: Option<Discount>, j: nat)
    requires ValidDiscount(discount) && DocumentDiscount(lines, discount) > 0.0 && j < |XmlKeys(lines)|
    ensures var k := XmlKeys(lines)[j];
            j < |GroupShares(lines, discount)| && GroupShares(lines, discount)[j] * TotalPre(lines)
            == DocumentDiscount(lines, discount) * Under(lines, NetsPre(lines), k.category, k.rate)
  {
    hide *;
    PositiveDiscountMeansPositiveTotal(lines, discount);
    var k := XmlKeys(lines)[j];
    ShareAt(lines, discount, j);
    UnderIsGroup(lines, Absorbed(lines, discount), k.category, k.rate);
    forall i | 0 <= i < |lines|
      ensures Absorbed(lines, discount)[i] * TotalPre(lines) == DocumentDiscount(lines, discount) * NetsPre(lines)[i]
    {
      OneAbsorbed(lines, discount, i);
    }
    UnderScaled(lines, Absorbed(lines, discount), NetsPre(lines), TotalPre(lines), DocumentDiscount(lines, discount), k.category, k.rate);
  }

  lemma {:induction false} ShareAt(lines: seq<InvoiceLine>, discount: Option<Discount>, j: nat)
    requires j < |XmlKeys(lines)|
    ensures |GroupShares(lines, discount)| == |XmlKeys(lines)|
    ensures GroupShares(lines, discount)[j] == GroupSum(KeysOf(lines), Absorbed(lines, discount), XmlKeys(lines)[j])
  {
    hide GroupSum, Absorbed, KeysOf;
  }

  lemma {:induction false} PatchedPart(parts: seq<int>, total: int, j: nat)
    requires j < |parts|
    ensures Patched(parts, total)[j] == parts[j] || Patched(parts, total)[j] == parts[j] + total - SumInt(parts)
  {
    hide MaxIndex, SumInt;
  }

  lemma {:induction false} PartsPatched(lines: seq<InvoiceLine>, discount: Option<Discount>, cur: Currency, j: nat)
    requires lines != [] && j < |XmlKeys(lines)|
    ensures var parts := Quantizes(GroupShares(lines, discount), cur);
            var part := AllowanceParts(lines, discount, cur)[j];
            && parts[j] == Quantize(GroupShares(lines, discount)[j], cur)
            && (part == parts[j] || part == parts[j] + Quantize(DocumentDiscount(lines, discount), cur) - SumInt(parts))
  {
    PatchedPart(Quantizes(GroupShares(lines, discount), cur), Quantize(DocumentDiscount(lines, discount), cur), j);
    hide Patched, GroupShares, Quantize, DocumentDiscount, SumInt;
  }

  /** So what is charged under a category and rate stays within (k + 2) / 2 units of the document discount times
      the group's part of the net, k groups being charged; a group with a negative part is charged about nothing. */
  lemma {:induction false} ChargesNearShares(lines: seq<InvoiceLine>, discount: Option<Discount>, cur: Currency, j: nat)
    requires ValidDiscount(discount) && DocumentDiscount(lines, discount) > 0.0 && j < |XmlKeys(lines)|
    ensures TotalPre(lines) > 0.0
    ensures var key, k := XmlKeys(lines)[j], |XmlKeys(lines)|;
            var document, net := DiscountAmount(TotalPre(lines), discount), Under(lines, NetsPre(lines), key.category, key.rate);
            var share := Part(document, net, TotalPre(lines));
            Within(ChargedUnder(AmountsOf(lines, discount, cur).allowances, key), share, k + 2, cur)
  {
    hide *;
    PositiveDiscountMeansPositiveTotal(lines, discount);
    SharesInProportion(lines, discount, j);
    DocumentOff(lines, discount);
    ShareAt(lines, discount, j);
    var key, share := XmlKeys(lines)[j], GroupShares(lines, discount)[j];
    DividedBack(share, TotalPre(lines), DocumentDiscount(lines, discount), Under(lines, NetsPre(lines), key.category, key.rate));
    ChargesByGroup(lines, discount, cur);
    PartsPatched(lines, discount, cur, j);
    ResidualBound(lines, discount, cur);
    QuantizeIsNear(share, cur);
    var parts := Quantizes(GroupShares(lines, discount), cur);
    var residual := Quantize(DocumentDiscount(lines, discount), cur) - SumInt(parts);
    PartBound(parts[j], AllowanceParts(lines, discount, cur)[j], residual, |XmlKeys(lines)|, share, cur);
  }

  /** Within half of n units of an exact amount, or of nothing if that is negative. */
  predicate Within(charged: int, exact: real, n: nat, cur: Currency) {
    var share := if exact * UnitsIn(cur) > 0.0 then exact * UnitsIn(cur) else 0.0;
    -(n as real) <= 2.0 * (charged as real - share) <= n as real
  }

  /** What falls to one net out of a total of nets. */
  function Part(amount: real, net: real, total: real): real
    requires total > 0.0
  {
    amount * net / total
  }

  lemma {:induction false} DividedBack(share: real, total: real, amount: real, net: real)
    requires total > 0.0 && share * total == amount * net
    ensures share == Part(amount, net, total)
  {
  }

  lemma {:induction false} PartBound(q: int, part: int, residual: int, k: nat, share: real, cur: Currency)
    requires Near(q, share, cur) && (part == q || part == q + residual) && -(k + 1) <= 2 * residual <= k + 1
    ensures Within(if part > 0 then part else 0, share, k + 2, cur)
  {
    var x := share * UnitsIn(cur);
    assert 2.0 * q as real - 2.0 * x <= 1.0 && -1.0 <= 2.0 * q as real - 2.0 * x;
    assert (2 * residual) as real == 2.0 * residual as real;
    assert part as real == q as real || part as real == q as real + residual as real;
    hide UnitsIn;
  }

  // ------------------------------------------------------------------ monetary totals of the document

  /** The monetary totals of the XML document, in the lines' own fields. */
  lemma {:induction false} XmlTotalsInFields(lines: seq<InvoiceLine>, discount: Option<Discount>, cur: Currency)
    ensures var x, net := AmountsOf(lines, discount, cur), Worth(lines) - TakenOff(lines);
            var exclusive := net - DiscountAmount(net, discount);
            && Near(x.lineExtension, net, cur)
            && Near(x.taxExclusive, exclusive, cur)
            && Near(x.taxInclusive, exclusive + TaxOn(lines, XmlNets(lines, discount)), cur)
            && x.payable == x.taxInclusive
            && var charged := SumInt(AmountsOfAllowances(x.allowances));
               x.allowanceTotal == if charged > 0 then Some(charged) else None
  {
    hide *;
    AllowanceTotalIsSumOfAllowances(lines, discount, cur);
    XmlTaxIs(lines, discount);
    WorthIsGross(lines);
    NetsPreSum(lines);
    DocumentOff(lines, discount);
    NineAmounts(lines, discount, cur);
    var exclusive := TotalPre(lines) - DocumentDiscount(lines, discount);
    QuantizeIsNear(TotalPre(lines), cur);
    QuantizeIsNear(exclusive, cur);
    QuantizeIsNear(exclusive + XmlTotalTax(lines, discount), cur);
  }

  /** Every line of the XML document states its own net, before the document discount. */
  lemma {:induction false} LineAmountsInFields(lines: seq<InvoiceLine>, discount: Option<Discount>, cur: Currency, i: nat)
    requires i < |lines|
    ensures var amounts, worth := AmountsOf(lines, discount, cur).lineAmounts, lines[i].quantity * lines[i].unitPrice;
            |amounts| == |lines| && Near(amounts[i], worth - DiscountAmount(worth, lines[i].discount), cur)
  {
    NineAmounts(lines, discount, cur);
    hide AmountsOf, NetsPre, DiscountAmount, Near, Quantize;
    NetBefore(lines, i);
    QuantizeIsNear(NetsPre(lines)[i], cur);
  }

  /** The builder's own spreading: in proportion to the nets whatever their sign, as long as there is a discount
      and a net to divide by. */
  lemma {:induction false} XmlNetsInProportion(lines: seq<InvoiceLine>, discount: Option<Discount>, i: nat)
    requires i < |lines|
    ensures var total, document := TotalPre(lines), DiscountAmount(TotalPre(lines), discount);
            if total != 0.0 then XmlNets(lines, discount)[i] * total == NetsPre(lines)[i] * (total - document)
            else XmlNets(lines, discount)[i] == NetsPre(lines)[i]
  {
    hide *;
    DocumentOff(lines, discount);
    if TotalPre(lines) != 0.0 && DocumentDiscount(lines, discount) != 0.0 {
      XmlNetAt(lines, discount, i);
      InProportion(NetsPre(lines)[i], DocumentDiscount(lines, discount), TotalPre(lines));
    } else {
      XmlNetUntouched(lines, discount);
    }
  }

  lemma {:induction false} XmlNetUntouched(lines: seq<InvoiceLine>, discount: Option<Discount>)
    requires TotalPre(lines) == 0.0 || DocumentDiscount(lines, discount) == 0.0
    ensures XmlNets(lines, discount) == NetsPre(lines)
  {
    hide TotalPre, DocumentDiscount, NetsPre;
  }

  // ------------------------------------------------------------------ discounts and rates

  /** A percentage takes that many hundredths off, a fixed discount its amount as long as the base has it. */
  lemma {:induction false} DiscountInFields(base: real, discount: Option<Discount>)
    ensures discount.None? ==> DiscountAmount(base, discount) == 0.0
    ensures discount.Some? && discount.value.kind == PERCENTAGE ==>
      100.0 * DiscountAmount(base, discount) == discount.value.amount * base
    ensures discount.Some? && discount.value.kind == FIXED ==>
      DiscountAmount(base, discount) == if discount.value.amount <= base then discount.value.amount else base
  {
  }

  /** The lines taxed at one rate, whatever their category. */
  ghost function AtRate(lines: seq<InvoiceLine>, nets: seq<real>, rate: real): real
    requires |nets| == |lines|
  {
    if lines == [] then 0.0
    else
      var n := |lines| - 1;
      AtRate(lines[..n], nets[..n], rate) + if lines[n].rate == rate then nets[n] else 0.0
  }

  lemma {:induction false} AtRateIsGroup(lines: seq<InvoiceLine>, nets: seq<real>, rate: real)
    requires |nets| == |lines|
    ensures GroupSum(RatesOf(lines), VatsOn(lines, nets), rate) == Percent(AtRate(lines, nets, rate), rate)
  {
    if lines != [] {
      var n := |lines| - 1;
      AtRateIsGroup(lines[..n], nets[..n], rate);
      assert RatesOf(lines)[..n] == RatesOf(lines[..n]) && VatsOn(lines, nets)[..n] == VatsOn(lines[..n], nets[..n]);
      assert VatsOn(lines, nets)[n] == nets[n] * lines[n].rate / 100.0;
      OneTax(AtRate(lines[..n], nets[..n], rate), nets[n], rate);
      hide VatsOn, VatOn;
    }
  }

  /** The breakdown of the totals has one entry for each rate of the lines: the tax at that rate. */
  lemma {:induction false} BreakdownInFields(lines: seq<InvoiceLine>, discount: Option<Discount>, cur: Currency, rate: real)
    ensures var breakdown := TotalsOf(lines, discount, cur).breakdown;
            && (rate in breakdown <==> exists i :: 0 <= i < |lines| && lines[i].rate == rate)
            && (rate in breakdown ==>
                  Near(breakdown[rate], Percent(AtRate(lines, AllocatedNets(lines, discount), rate), rate), cur))
  {
    if lines != [] {
      BreakdownAt(lines, discount, cur, rate);
      hide *;
      AtRateIsGroup(lines, AllocatedNets(lines, discount), rate);
      QuantizeIsNear(GroupSum(RatesOf(lines), VatsOn(lines, AllocatedNets(lines, discount)), rate), cur);
    }
  }

  lemma {:induction false} BreakdownAt(lines: seq<InvoiceLine>, discount: Option<Discount>, cur: Currency, rate: real)
    requires lines != []
    ensures var breakdown := TotalsOf(lines, discount, cur).breakdown;
            && (rate in breakdown <==> exists i :: 0 <= i < |lines| && lines[i].rate == rate)
            && (rate in breakdown ==>
                  breakdown[rate] == Quantize(GroupSum(RatesOf(lines), VatsOn(lines, AllocatedNets(lines, discount)), rate), cur))
  {
    SixTotals(lines, discount, cur);
    hide TotalsOf, GroupSum, VatsOn, AllocatedNets, Quantize;
    assert forall i :: 0 <= i < |lines| ==> RatesOf(lines)[i] == lines[i].rate;
  }
}
