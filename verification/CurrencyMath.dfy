// core/rules/currency_math.py: the money engine shared by invoices, quotes and the VAT report.
module CurrencyMath {
  import opened Common
  import opened Grouping
  import opened Money
  import opened Lines

  // ------------------------------------------------------------------ what a line carries

  function Gross(line: InvoiceLine): real {
    line.quantity * line.unitPrice
  }

  function LineDiscount(line: InvoiceLine): real {
    DiscountAmount(Gross(line), line.discount)
  }

  /** The line net before the document discount. */
  function NetPre(line: InvoiceLine): real {
    Gross(line) - LineDiscount(line)
  }

  function VatOn(net: real, rate: real): real {
    net * rate / 100.0
  }

  function Grosses(lines: seq<InvoiceLine>): (r: seq<real>)
    ensures |r| == |lines|
  {
    seq(|lines|, i requires 0 <= i < |lines| => Gross(lines[i]))
  }

  function LineDiscounts(lines: seq<InvoiceLine>): (r: seq<real>)
    ensures |r| == |lines|
  {
    seq(|lines|, i requires 0 <= i < |lines| => LineDiscount(lines[i]))
  }

  function NetsPre(lines: seq<InvoiceLine>): (r: seq<real>)
    ensures |r| == |lines|
  {
    seq(|lines|, i requires 0 <= i < |lines| => NetPre(lines[i]))
  }

  function TotalPre(lines: seq<InvoiceLine>): real {
    Sum(NetsPre(lines))
  }

  function DocumentDiscount(lines: seq<InvoiceLine>, discount: Option<Discount>): real {
    DiscountAmount(TotalPre(lines), discount)
  }

  /** The part of the document discount that line i absorbs: in proportion to its net, or in
      equal parts when there is nothing to be proportional to. */
  function Share(lines: seq<InvoiceLine>, i: nat): real
    requires i < |lines|
  {
    if TotalPre(lines) > 0.0 then NetPre(lines[i]) / TotalPre(lines) else 1.0 / |lines| as real
  }

  function AllocatedNets(lines: seq<InvoiceLine>, discount: Option<Discount>): (r: seq<real>)
    ensures |r| == |lines|
  {
    seq(|lines|, i requires 0 <= i < |lines| =>
      NetAfter(NetPre(lines[i]), DocumentDiscount(lines, discount), Share(lines, i)))
  }

  function NetAfter(net: real, documentDiscount: real, share: real): real {
    net - documentDiscount * share
  }

  function VatsOn(lines: seq<InvoiceLine>, nets: seq<real>): (r: seq<real>)
    requires |nets| == |lines|
    ensures |r| == |lines|
  {
    seq(|lines|, i requires 0 <= i < |lines| => VatOn(nets[i], lines[i].rate))
  }

  /** Net and VAT of the whole document, exact. */
  function NetExact(lines: seq<InvoiceLine>, discount: Option<Discount>): real {
    TotalPre(lines) - DocumentDiscount(lines, discount)
  }

  function VatExact(lines: seq<InvoiceLine>, discount: Option<Discount>): real {
    Sum(VatsOn(lines, AllocatedNets(lines, discount)))
  }

  // ------------------------------------------------------------------ _allocate

  method Allocate(lines: seq<InvoiceLine>, discount: Option<Discount>)
    returns (grosses: seq<real>, discs: seq<real>, invoiceDisc: real, nets: seq<real>)
    requires lines != []
    ensures grosses == Grosses(lines)
    ensures forall i :: 0 <= i < |lines| ==> grosses[i] == lines[i].quantity * lines[i].unitPrice
    ensures discs == LineDiscounts(lines)
    ensures invoiceDisc == DocumentDiscount(lines, discount)
    ensures nets == AllocatedNets(lines, discount)
  {
    grosses, discs := [], [];
    for i := 0 to |lines|
      invariant |grosses| == |discs| == i
      invariant forall j :: 0 <= j < i ==> grosses[j] == Gross(lines[j]) && discs[j] == LineDiscount(lines[j])
    {
      var gross := Gross(lines[i]);
      grosses := grosses + [gross];
      discs := discs + [DiscountAmount(gross, lines[i].discount)];
    }
    var netsPre := seq(|lines|, i requires 0 <= i < |lines| => grosses[i] - discs[i]);
    assert netsPre == NetsPre(lines);
    var totalPre := Sum(netsPre);
    invoiceDisc := DiscountAmount(totalPre, discount);
    var shares :=
      if totalPre > 0.0 then seq(|lines|, i requires 0 <= i < |lines| => netsPre[i] / totalPre)
      else seq(|lines|, i => 1.0 / |lines| as real);
    assert forall i :: 0 <= i < |lines| ==> shares[i] == Share(lines, i);
    nets := seq(|lines|, i requires 0 <= i < |lines| => NetAfter(netsPre[i], invoiceDisc, shares[i]));
  }

  /** The shares of a non-empty document add up to one. */
  lemma {:induction false} SharesAddToOne(lines: seq<InvoiceLine>, shares: seq<real>)
    requires lines != [] && |shares| == |lines|
    requires forall i :: 0 <= i < |lines| ==> shares[i] == Share(lines, i)
    ensures Sum(shares) == 1.0
  {
    var total := TotalPre(lines);
    if total > 0.0 {
      SumScaled(NetsPre(lines), 1.0 / total, shares);
    } else {
      SumConstant(shares, 1.0 / |lines| as real);
    }
  }

  /** Spreading d over shares that add up to one takes exactly d off the total. */
  lemma {:induction false} SpreadConserves(pre: seq<real>, d: real, shares: seq<real>, nets: seq<real>)
    requires |pre| == |shares| == |nets|
    requires forall i :: 0 <= i < |nets| ==> nets[i] == NetAfter(pre[i], d, shares[i])
    ensures Sum(nets) == Sum(pre) - d * Sum(shares)
  {
    if nets != [] {
      var n := |nets| - 1;
      SpreadConserves(pre[..n], d, shares[..n], nets[..n]);
    }
  }

  lemma {:induction false} NetsPreSum(lines: seq<InvoiceLine>)
    ensures TotalPre(lines) == Sum(Grosses(lines)) - Sum(LineDiscounts(lines))
  {
    SumLinear(Grosses(lines), LineDiscounts(lines), -1.0, NetsPre(lines));
  }

  /** Conservation: spreading the document discount over the lines loses and creates nothing. */
  lemma {:induction false} AllocationConserves(lines: seq<InvoiceLine>, discount: Option<Discount>)
    requires lines != []
    ensures Sum(AllocatedNets(lines, discount)) == NetExact(lines, discount)
    ensures NetExact(lines, discount)
         == Sum(Grosses(lines)) - Sum(LineDiscounts(lines)) - DocumentDiscount(lines, discount)
  {
    hide NetPre, Gross, LineDiscount, DiscountAmount, NetAfter;
    var shares := seq(|lines|, i requires 0 <= i < |lines| => Share(lines, i));
    SharesAddToOne(lines, shares);
    hide Share;
    SpreadConserves(NetsPre(lines), DocumentDiscount(lines, discount), shares, AllocatedNets(lines, discount));
    NetsPreSum(lines);
  }

  // ------------------------------------------------------------------ invoice_totals

  datatype Totals = Totals(
    subtotal: int, totalDiscount: int, net: int, totalVat: int, totalTtc: int,
    breakdown: map<real, int>)

  const NO_TOTALS := Totals(0, 0, 0, 0, 0, map[])

  function RatesOf(lines: seq<InvoiceLine>): (r: seq<real>)
    ensures |r| == |lines|
  {
    seq(|lines|, i requires 0 <= i < |lines| => lines[i].rate)
  }

  /** Full precision throughout, each reported figure rounded once at the very end. */
  function TotalsOf(lines: seq<InvoiceLine>, discount: Option<Discount>, cur: Currency): Totals {
    if lines == [] then NO_TOTALS
    else
      Totals(
        Quantize(Sum(Grosses(lines)), cur),
        Quantize(Sum(LineDiscounts(lines)) + DocumentDiscount(lines, discount), cur),
        Quantize(NetExact(lines, discount), cur),
        Quantize(VatExact(lines, discount), cur),
        Quantize(NetExact(lines, discount) + VatExact(lines, discount), cur),
        QuantizeEach(BreakdownOf(lines, AllocatedNets(lines, discount)), cur))
  }

  /** VAT per rate, exact. */
  function BreakdownOf(lines: seq<InvoiceLine>, nets: seq<real>): map<real, real>
    requires |nets| == |lines|
  {
    map rate | rate in RatesOf(lines) :: GroupSum(RatesOf(lines), VatsOn(lines, nets), rate)
  }

  function QuantizeEach(m: map<real, real>, cur: Currency): map<real, int> {
    map k | k in m :: Quantize(m[k], cur)
  }

  lemma {:induction false} TotalsFromParts(lines: seq<InvoiceLine>, discount: Option<Discount>, cur: Currency, net: real, vat: real)
    requires lines != []
    requires net == Sum(Grosses(lines)) - Sum(LineDiscounts(lines)) - DocumentDiscount(lines, discount)
    requires vat == Sum(VatsOn(lines, AllocatedNets(lines, discount)))
    ensures TotalsOf(lines, discount, cur) == Totals(
      Quantize(Sum(Grosses(lines)), cur),
      Quantize(Sum(LineDiscounts(lines)) + DocumentDiscount(lines, discount), cur),
      Quantize(net, cur), Quantize(vat, cur), Quantize(net + vat, cur),
      QuantizeEach(BreakdownOf(lines, AllocatedNets(lines, discount)), cur))
  {
    hide *;
    AllocationConserves(lines, discount);
    VatOfLines(lines, discount);
    SixTotals(lines, discount, cur);
  }

  lemma {:induction false} VatOfLines(lines: seq<InvoiceLine>, discount: Option<Discount>)
    ensures VatExact(lines, discount) == Sum(VatsOn(lines, AllocatedNets(lines, discount)))
  {
  }

  lemma {:induction false} SixTotals(lines: seq<InvoiceLine>, discount: Option<Discount>, cur: Currency)
    requires lines != []
    ensures TotalsOf(lines, discount, cur) == Totals(
      Quantize(Sum(Grosses(lines)), cur),
      Quantize(Sum(LineDiscounts(lines)) + DocumentDiscount(lines, discount), cur),
      Quantize(NetExact(lines, discount), cur), Quantize(VatExact(lines, discount), cur),
      Quantize(NetExact(lines, discount) + VatExact(lines, discount), cur),
      QuantizeEach(BreakdownOf(lines, AllocatedNets(lines, discount)), cur))
  {
    hide Quantize, DocumentDiscount, AllocatedNets, Grosses, LineDiscounts, BreakdownOf, QuantizeEach, Sum, NetExact, VatExact;
  }

  lemma {:induction false} NothingTotals(discount: Option<Discount>, cur: Currency)
    ensures TotalsOf([], discount, cur) == NO_TOTALS
  {
  }

  method InvoiceTotals(lines: seq<InvoiceLine>, discount: Option<Discount>, cur: Currency)
    returns (r: Totals)
    ensures r == TotalsOf(lines, discount, cur)
  {
    hide *;
    if lines == [] {
      NothingTotals(discount, cur);
      return NO_TOTALS;
    }
    var grosses, discs, invoiceDisc, nets := Allocate(lines, discount);
    var totalPre := Sum(grosses) - Sum(discs);
    var totalVat, breakdown := VatBreakdown(lines, nets);
    var netHt := totalPre - invoiceDisc;
    TotalsFromParts(lines, discount, cur, netHt, totalVat);
    r := Totals(
      Quantize(Sum(grosses), cur),
      Quantize(Sum(discs) + invoiceDisc, cur),
      Quantize(netHt, cur),
      Quantize(totalVat, cur),
      Quantize(netHt + totalVat, cur),
      QuantizeEach(breakdown, cur));
  }

  /** A dict that has accumulated some values under their rates. */
  ghost predicate PerRate(breakdown: map<real, real>, rates: seq<real>, vats: seq<real>)
    requires |rates| == |vats|
  {
    && (forall rate :: rate in breakdown <==> rate in rates)
    && (forall rate :: rate in breakdown ==> breakdown[rate] == GroupSum(rates, vats, rate))
  }

  lemma {:induction false} PerRateNext(breakdown: map<real, real>, rates: seq<real>, vats: seq<real>, rate: real, vat: real)
    requires |rates| == |vats| && PerRate(breakdown, rates, vats)
    ensures PerRate(breakdown[rate := (if rate in breakdown then breakdown[rate] else 0.0) + vat], rates + [rate], vats + [vat])
  {
    GroupStep(rates, vats, rate, vat);
    hide GroupSum;
  }

  lemma {:induction false} PerRateAll(breakdown: map<real, real>, lines: seq<InvoiceLine>, nets: seq<real>)
    requires |nets| == |lines| && PerRate(breakdown, RatesOf(lines), VatsOn(lines, nets))
    ensures breakdown == BreakdownOf(lines, nets)
  {
    hide GroupSum, RatesOf, VatsOn;
    var expected := BreakdownOf(lines, nets);
    assert forall rate :: rate in breakdown <==> rate in expected;
    assert breakdown.Keys == expected.Keys;
    assert forall rate :: rate in breakdown ==> breakdown[rate] == expected[rate];
  }

  lemma {:induction false} TermAt(lines: seq<InvoiceLine>, nets: seq<real>, i: nat)
    requires i < |lines| == |nets|
    ensures VatsOn(lines, nets)[i] == VatOn(nets[i], lines[i].rate) && RatesOf(lines)[i] == lines[i].rate
  {
    hide VatOn;
  }

  lemma {:induction false} NothingPerRate()
    ensures PerRate(map[], [], []) && Sum([]) == 0.0
  {
  }

  /** The loop of `invoice_totals`: total VAT and VAT per rate, at full precision. */
  method VatBreakdown(lines: seq<InvoiceLine>, nets: seq<real>) returns (totalVat: real, breakdown: map<real, real>)
    requires |nets| == |lines|
    ensures totalVat == Sum(VatsOn(lines, nets))
    ensures breakdown == BreakdownOf(lines, nets)
  {
    hide *;
    ghost var vats, rates := VatsOn(lines, nets), RatesOf(lines);
    totalVat, breakdown := 0.0, map[];
    NothingPerRate();
    for i := 0 to |lines|
      invariant totalVat == Sum(vats[..i])
      invariant PerRate(breakdown, rates[..i], vats[..i])
    {
      var rate, lineVat := lines[i].rate, VatOn(nets[i], lines[i].rate);
      TermAt(lines, nets, i);
      TakeOneMore(rates, vats, i);
      PerRateNext(breakdown, rates[..i], vats[..i], rate, lineVat);
      totalVat := totalVat + lineVat;
      breakdown := breakdown[rate := (if rate in breakdown then breakdown[rate] else 0.0) + lineVat];
    }
    assert vats[..|lines|] == vats && rates[..|lines|] == rates;
    PerRateAll(breakdown, lines, nets);
  }

  lemma {:induction false} TakeOneMore<K(!new)>(keys: seq<K>, vals: seq<real>, i: nat)
    requires i < |keys| == |vals|
    ensures keys[..i + 1] == keys[..i] + [keys[i]] && vals[..i + 1] == vals[..i] + [vals[i]]
    ensures Sum(vals[..i + 1]) == Sum(vals[..i]) + vals[i]
  {
    SumSnoc(vals[..i], vals[i]);
  }

  /** One step of an accumulating dict. */
  lemma {:induction false} GroupStep<K(!new)>(keys: seq<K>, vals: seq<real>, key: K, x: real)
    requires |keys| == |vals|
    ensures forall k :: GroupSum(keys + [key], vals + [x], k) == GroupSum(keys, vals, k) + if key == k then x else 0.0
    ensures key !in keys ==> GroupSum(keys, vals, key) == 0.0
  {
    forall k ensures GroupSum(keys + [key], vals + [x], k) == GroupSum(keys, vals, k) + if key == k then x else 0.0 {
      GroupSumSnoc(keys, vals, key, x, k);
    }
    if key !in keys {
      GroupSumAbsent(keys, vals, key);
    }
  }

  /** The three headline figures are rounded separately; they disagree by at most one unit. */
  lemma {:induction false} HeadlineDrift(lines: seq<InvoiceLine>, discount: Option<Discount>, cur: Currency)
    ensures var t := TotalsOf(lines, discount, cur);
            -1 <= t.totalTtc - t.net - t.totalVat <= 1
  {
    QuantizePairDrift(NetExact(lines, discount), VatExact(lines, discount), cur);
  }

  lemma {:induction false} HalfCents()
    ensures Quantize(0.005, EUR) == 0 && Quantize(0.005 + 0.005, EUR) == 1
  {
    RoundHalfEvenUnique(0.5, 0);
    RoundHalfEvenUnique(1.0, 1);
    hide RoundHalfEven;
  }

  /** One unit of drift does occur: half a cent of net and half a cent of VAT make a cent. */
  lemma {:induction false} HeadlineDriftIsReached()
    ensures var line := InvoiceLine(1, "x", 1.0, 0.005, None, Services, Standard, 100.0, None);
            var t := TotalsOf([line], None, EUR);
            t.net == 0 && t.totalVat == 0 && t.totalTtc == 1
  {
    var line := InvoiceLine(1, "x", 1.0, 0.005, None, Services, Standard, 100.0, None);
    OneLineTotals(line, 0.005, 0.005);
    HalfCents();
    hide NetExact, VatExact, Quantize, BreakdownOf, QuantizeEach, Grosses, LineDiscounts, DocumentDiscount, AllocatedNets, Gross, VatOn;
  }

  /** A document of one undiscounted line. */
  lemma {:induction false} OneLineTotals(line: InvoiceLine, net: real, vat: real)
    requires line.discount.None? && Gross(line) == net > 0.0 && VatOn(net, line.rate) == vat
    ensures NetExact([line], None) == net && VatExact([line], None) == vat
  {
    var lines := [line];
    assert NetPre(line) == net;
    assert NetsPre(lines) == [net];
    SumSnoc([], net);
    assert [] + [net] == [net];
    assert TotalPre(lines) == net;
    assert NetAfter(net, 0.0, Share(lines, 0)) == net;
    assert AllocatedNets(lines, None) == [net];
    SumSnoc([], vat);
    assert [] + [vat] == [vat];
    assert VatsOn(lines, [net]) == [vat];
  }

  /** When every line has the same rate, spreading the document discount cannot move any VAT:
      the VAT is the rate applied to the discounted net, whatever the shares. */
  lemma {:induction false} SingleRateVat(lines: seq<InvoiceLine>, discount: Option<Discount>, rate: real)
    requires lines != [] && forall line :: line in lines ==> line.rate == rate
    ensures VatExact(lines, discount) == VatOn(NetExact(lines, discount), rate)
  {
    AllocationConserves(lines, discount);
    var nets := AllocatedNets(lines, discount);
    forall i | 0 <= i < |lines| ensures VatsOn(lines, nets)[i] == VatOn(nets[i], rate) {
      assert lines[i] in lines;
    }
    VatOfSum(nets, rate, VatsOn(lines, nets));
  }

  lemma {:induction false} VatOfSum(nets: seq<real>, rate: real, vats: seq<real>)
    requires |nets| == |vats|
    requires forall i :: 0 <= i < |nets| ==> vats[i] == VatOn(nets[i], rate)
    ensures Sum(vats) == VatOn(Sum(nets), rate)
  {
    if nets != [] {
      var n := |nets| - 1;
      VatOfSum(nets[..n], rate, vats[..n]);
    }
  }

  // ------------------------------------------------------------------ vat_buckets

  datatype VatBucket = VatBucket(key: VatKey, taxableBase: int, vatAmount: int)

  /** The exact base and VAT of one (category, rate) group. */
  function GroupBase(lines: seq<InvoiceLine>, discount: Option<Discount>, k: VatKey): real {
    GroupSum(KeysOf(lines), AllocatedNets(lines, discount), k)
  }

  function GroupVat(lines: seq<InvoiceLine>, discount: Option<Discount>, k: VatKey): real {
    GroupSum(KeysOf(lines), VatsOn(lines, AllocatedNets(lines, discount)), k)
  }

  /** `sorted(..., key=(category code, rate))`, by insertion. */
  function InsertKey(ks: seq<VatKey>, k: VatKey): (r: seq<VatKey>)
    ensures multiset(r) == multiset(ks) + multiset{k}
    ensures |r| == |ks| + 1
  {
    if ks == [] then [k]
    else
      var n := |ks| - 1;
      assert ks == ks[..n] + [ks[n]];
      if KeyBefore(ks[n], k) then ks + [k] else InsertKey(ks[..n], k) + [ks[n]]
  }

  function SortKeys(ks: seq<VatKey>): (r: seq<VatKey>)
    ensures multiset(r) == multiset(ks)
    ensures |r| == |ks|
  {
    if ks == [] then [] else
    assert ks == ks[..|ks| - 1] + [ks[|ks| - 1]];
    InsertKey(SortKeys(ks[..|ks| - 1]), ks[|ks| - 1])
  }

  ghost predicate StrictlySorted(ks: seq<VatKey>) {
    forall i, j :: 0 <= i < j < |ks| ==> KeyBefore(ks[i], ks[j])
  }

  lemma {:induction false} KeyOrderIsTotal(a: VatKey, b: VatKey)
    ensures KeyBefore(a, b) || KeyBefore(b, a) || a == b
  {
  }

  lemma {:induction false} AllBefore(ks: seq<VatKey>, k: VatKey)
    requires StrictlySorted(ks) && ks != [] && KeyBefore(ks[|ks| - 1], k)
    ensures StrictlySorted(ks + [k])
  {
    assert forall i :: 0 <= i < |ks| - 1 ==> KeyBefore(ks[i], ks[|ks| - 1]);
  }

  lemma {:induction false} InsertKeySorted(ks: seq<VatKey>, k: VatKey)
    requires StrictlySorted(ks) && k !in ks
    ensures StrictlySorted(InsertKey(ks, k))
  {
    if ks != [] {
      var n := |ks| - 1;
      KeyOrderIsTotal(ks[n], k);
      if KeyBefore(ks[n], k) {
        AllBefore(ks, k);
      } else {
        hide KeyBefore;
        InsertKeySorted(ks[..n], k);
        var r := InsertKey(ks[..n], k);
        forall i | 0 <= i < |r| ensures KeyBefore(r[i], ks[n]) {
          assert r[i] in multiset(r);
          assert r[i] in ks[..n] || r[i] == k;
        }
      }
    }
  }

  lemma {:induction false} SortKeysSorted(ks: seq<VatKey>)
    requires Distinct(ks)
    ensures StrictlySorted(SortKeys(ks))
  {
    if ks != [] {
      var n := |ks| - 1;
      SortKeysSorted(ks[..n]);
      assert ks[n] !in multiset(ks[..n]);
      InsertKeySorted(SortKeys(ks[..n]), ks[n]);
    }
  }

  /** What the dict holds per key. */
  datatype Accumulated = Accumulated(base: real, vat: real)

  function BucketFrom(k: VatKey, acc: Accumulated, cur: Currency): VatBucket {
    VatBucket(k, Quantize(acc.base, cur), Quantize(acc.vat, cur))
  }

  function BucketAt(lines: seq<InvoiceLine>, discount: Option<Discount>, cur: Currency, k: VatKey): VatBucket {
    BucketFrom(k, Accumulated(GroupBase(lines, discount, k), GroupVat(lines, discount, k)), cur)
  }

  function BucketKeys(lines: seq<InvoiceLine>): seq<VatKey> {
    SortKeys(FirstOccurrences(KeysOf(lines)))
  }

  /** Taxable base and VAT per (category, rate), in key order. */
  function BucketsOf(lines: seq<InvoiceLine>, discount: Option<Discount>, cur: Currency): (r: seq<VatBucket>)
    ensures |r| == |BucketKeys(lines)|
  {
    var ks := BucketKeys(lines);
    seq(|ks|, j requires 0 <= j < |ks| => BucketAt(lines, discount, cur, ks[j]))
  }

  /** The dict holds, for exactly the keys seen, the sums of the nets and VAT seen under them. */
  ghost predicate Accumulates(acc: map<VatKey, Accumulated>, keys: seq<VatKey>, nets: seq<real>, vats: seq<real>)
    requires |keys| == |nets| == |vats|
  {
    && acc.Keys == (set k | k in keys)
    && forall k :: k in acc ==> acc[k] == Accumulated(GroupSum(keys, nets, k), GroupSum(keys, vats, k))
  }

  function Accumulate(acc: map<VatKey, Accumulated>, key: VatKey, net: real, vat: real): map<VatKey, Accumulated> {
    var before := if key in acc then acc[key] else Accumulated(0.0, 0.0);
    acc[key := Accumulated(before.base + net, before.vat + vat)]
  }

  lemma {:induction false} AccumulateSnoc(acc: map<VatKey, Accumulated>, keys: seq<VatKey>, nets: seq<real>, vats: seq<real>,
                                          key: VatKey, net: real, vat: real)
    requires |keys| == |nets| == |vats| && Accumulates(acc, keys, nets, vats)
    ensures Accumulates(Accumulate(acc, key, net, vat), keys + [key], nets + [net], vats + [vat])
    ensures FirstOccurrences(keys + [key]) == if key in acc then FirstOccurrences(keys) else FirstOccurrences(keys) + [key]
  {
    hide GroupSum, FirstOccurrences;
    GroupStep(keys, nets, key, net);
    GroupStep(keys, vats, key, vat);
    FirstOccurrencesSnoc(keys, key);
  }

  /** One iteration of an accumulating loop: the dict and its insertion order cover one item more. */
  lemma {:induction false} AccumulateStep(acc: map<VatKey, Accumulated>, keys: seq<VatKey>, nets: seq<real>,
                                          vats: seq<real>, i: nat)
    requires i < |keys| == |nets| == |vats|
    requires Accumulates(acc, keys[..i], nets[..i], vats[..i])
    ensures Accumulates(Accumulate(acc, keys[i], nets[i], vats[i]), keys[..i + 1], nets[..i + 1], vats[..i + 1])
    ensures FirstOccurrences(keys[..i + 1])
         == if keys[i] in acc then FirstOccurrences(keys[..i]) else FirstOccurrences(keys[..i]) + [keys[i]]
  {
    hide Accumulates, Accumulate, FirstOccurrences;
    AccumulateSnoc(acc, keys[..i], nets[..i], vats[..i], keys[i], nets[i], vats[i]);
    assert keys[..i + 1] == keys[..i] + [keys[i]];
    assert nets[..i + 1] == nets[..i] + [nets[i]] && vats[..i + 1] == vats[..i] + [vats[i]];
  }

  lemma {:induction false} NothingAccumulated()
    ensures FirstOccurrences<VatKey>([]) == [] && Accumulates(map[], [], [], [])
  {
  }

  /** The accumulating loop of `vat_buckets`. A Python dict keeps insertion order; `order` is it. */
  method AccumulateByKey(lines: seq<InvoiceLine>, nets: seq<real>)
    returns (order: seq<VatKey>, acc: map<VatKey, Accumulated>)
    requires |nets| == |lines|
    ensures order == FirstOccurrences(KeysOf(lines))
    ensures Accumulates(acc, KeysOf(lines), nets, VatsOn(lines, nets))
  {
    hide VatOn, Accumulates, Accumulate, FirstOccurrences;
    ghost var keys, vats := KeysOf(lines), VatsOn(lines, nets);
    order, acc := [], map[];
    NothingAccumulated();
    for i := 0 to |lines|
      invariant order == FirstOccurrences(keys[..i])
      invariant Accumulates(acc, keys[..i], nets[..i], vats[..i])
    {
      AccumulateStep(acc, keys, nets, vats, i);
      var key := KeyOf(lines[i]);
      if key !in acc {
        order := order + [key];
      }
      acc := Accumulate(acc, key, nets[i], VatOn(nets[i], lines[i].rate));
    }
    assert keys[..|lines|] == keys && nets[..|lines|] == nets && vats[..|lines|] == vats;
  }

  method VatBuckets(lines: seq<InvoiceLine>, discount: Option<Discount>, cur: Currency)
    returns (r: seq<VatBucket>)
    ensures r == BucketsOf(lines, discount, cur)
  {
    if lines == [] {
      return [];
    }
    hide BucketFrom, AllocatedNets, SortKeys, KeysOf, VatsOn, Accumulates, BucketsFrom, BucketsOf;
    var _, _, _, nets := Allocate(lines, discount);
    var order, acc := AccumulateByKey(lines, nets);
    r := BucketsFrom(SortKeys(order), acc, cur);
    BucketsOfAccumulated(lines, discount, cur, acc);
  }

  lemma {:induction false} BucketsOfAccumulated(lines: seq<InvoiceLine>, discount: Option<Discount>, cur: Currency, acc: map<VatKey, Accumulated>)
    requires Accumulates(acc, KeysOf(lines), AllocatedNets(lines, discount), VatsOn(lines, AllocatedNets(lines, discount)))
    ensures BucketsFrom(BucketKeys(lines), acc, cur) == BucketsOf(lines, discount, cur)
  {
    BucketKeysCover(lines);
    hide BucketFrom, AllocatedNets, SortKeys, KeysOf, VatsOn, BucketKeys;
    assert forall j :: 0 <= j < |BucketKeys(lines)| ==> BucketsFrom(BucketKeys(lines), acc, cur)[j] == BucketsOf(lines, discount, cur)[j];
  }

  /** The closing list comprehension of `vat_buckets`. */
  function BucketsFrom(ks: seq<VatKey>, acc: map<VatKey, Accumulated>, cur: Currency): (r: seq<VatBucket>)
    ensures |r| == |ks|
  {
    seq(|ks|, j requires 0 <= j < |ks| =>
      BucketFrom(ks[j], if ks[j] in acc then acc[ks[j]] else Accumulated(0.0, 0.0), cur))
  }

  lemma {:induction false} BucketKeysCover(lines: seq<InvoiceLine>)
    ensures StrictlySorted(BucketKeys(lines)) && Distinct(BucketKeys(lines))
    ensures forall k :: k in BucketKeys(lines) <==> k in KeysOf(lines)
  {
    var first := FirstOccurrences(KeysOf(lines));
    SortKeysSorted(first);
    forall k ensures k in BucketKeys(lines) <==> k in KeysOf(lines) {
      assert k in multiset(BucketKeys(lines)) <==> k in multiset(first);
    }
  }

  /** Conservation over groups: exact bases and VAT of the groups add up to the document's. */
  lemma {:induction false} BucketsConserve(lines: seq<InvoiceLine>, discount: Option<Discount>)
    requires lines != []
    ensures Sum(GroupSums(KeysOf(lines), AllocatedNets(lines, discount), BucketKeys(lines)))
         == NetExact(lines, discount)
    ensures Sum(GroupSums(KeysOf(lines), VatsOn(lines, AllocatedNets(lines, discount)), BucketKeys(lines)))
         == VatExact(lines, discount)
  {
    BucketKeysCover(lines);
    AllocationConserves(lines, discount);
    GroupingConserves(KeysOf(lines), AllocatedNets(lines, discount), BucketKeys(lines));
    GroupingConserves(KeysOf(lines), VatsOn(lines, AllocatedNets(lines, discount)), BucketKeys(lines));
  }

  function BucketBases(buckets: seq<VatBucket>): (r: seq<int>)
    ensures |r| == |buckets|
  {
    seq(|buckets|, j requires 0 <= j < |buckets| => buckets[j].taxableBase)
  }

  function BucketVats(buckets: seq<VatBucket>): (r: seq<int>)
    ensures |r| == |buckets|
  {
    seq(|buckets|, j requires 0 <= j < |buckets| => buckets[j].vatAmount)
  }

  /** What k separately rounded buckets report and what the document reports differ by at most
      (k + 1) / 2 units, in base and in VAT. */
  lemma {:induction false} BucketDrift(lines: seq<InvoiceLine>, discount: Option<Discount>, cur: Currency)
    ensures var buckets, t := BucketsOf(lines, discount, cur), TotalsOf(lines, discount, cur);
            var k := |buckets|;
            && -(k + 1) <= 2 * (SumInt(BucketBases(buckets)) - t.net) <= k + 1
            && -(k + 1) <= 2 * (SumInt(BucketVats(buckets)) - t.totalVat) <= k + 1
  {
    if lines != [] {
      var buckets := BucketsOf(lines, discount, cur);
      var bases := GroupSums(KeysOf(lines), AllocatedNets(lines, discount), BucketKeys(lines));
      var vats := GroupSums(KeysOf(lines), VatsOn(lines, AllocatedNets(lines, discount)), BucketKeys(lines));
      BucketsConserve(lines, discount);
      assert BucketBases(buckets) == Quantizes(bases, cur);
      assert BucketVats(buckets) == Quantizes(vats, cur);
      QuantizesDrift(bases, cur);
      QuantizesDrift(vats, cur);
    }
  }

  // ------------------------------------------------------------------ signs

  predicate PercentagesAtMostHundred(discount: Option<Discount>) {
    discount.Some? && discount.value.kind.PERCENTAGE? ==> discount.value.amount <= 100.0
  }

  lemma {:induction false} NetPreNonNegative(line: InvoiceLine)
    requires ValidLine(line) && PercentagesAtMostHundred(line.discount)
    ensures 0.0 <= NetPre(line) <= Gross(line)
  {
    assert Gross(line) >= 0.0;
    DiscountAtMostBase(Gross(line), line.discount);
  }

  predicate ModestDiscounts(lines: seq<InvoiceLine>, discount: Option<Discount>) {
    && PercentagesAtMostHundred(discount)
    && forall line :: line in lines ==> PercentagesAtMostHundred(line.discount)
  }

  lemma {:induction false} NetsPreNonNegative(lines: seq<InvoiceLine>)
    requires ValidLines(lines) && ModestDiscounts(lines, None)
    ensures forall i :: 0 <= i < |lines| ==> NetsPre(lines)[i] >= 0.0 && LineDiscounts(lines)[i] >= 0.0
    ensures TotalPre(lines) >= 0.0 && Sum(LineDiscounts(lines)) >= 0.0
  {
    forall i | 0 <= i < |lines| ensures NetsPre(lines)[i] >= 0.0 && LineDiscounts(lines)[i] >= 0.0 {
      assert lines[i] in lines;
      NetPreNonNegative(lines[i]);
    }
    SumNonNegative(NetsPre(lines));
    SumNonNegative(LineDiscounts(lines));
  }

  lemma {:induction false} AllocatedNetsNonNegative(lines: seq<InvoiceLine>, discount: Option<Discount>)
    requires ValidLines(lines) && ValidDiscount(discount) && ModestDiscounts(lines, discount)
    ensures forall i :: 0 <= i < |lines| ==> AllocatedNets(lines, discount)[i] >= 0.0
    ensures 0.0 <= DocumentDiscount(lines, discount) <= TotalPre(lines)
  {
    NetsPreNonNegative(lines);
    var t, d := TotalPre(lines), DocumentDiscount(lines, discount);
    DiscountAtMostBase(t, discount);
    forall i | 0 <= i < |lines| ensures AllocatedNets(lines, discount)[i] >= 0.0 {
      assert NetsPre(lines)[i] >= 0.0;
      ShareAtMostNet(NetPre(lines[i]), t, d, Share(lines, i));
    }
  }

  lemma {:induction false} VatExactNonNegative(lines: seq<InvoiceLine>, nets: seq<real>)
    requires |nets| == |lines| && ValidLines(lines)
    requires forall i :: 0 <= i < |lines| ==> nets[i] >= 0.0
    ensures Sum(VatsOn(lines, nets)) >= 0.0
  {
    forall i | 0 <= i < |lines| ensures VatsOn(lines, nets)[i] >= 0.0 {
      assert lines[i] in lines;
      ProductNonNegative(nets[i], lines[i].rate);
    }
    SumNonNegative(VatsOn(lines, nets));
  }

  /** With no percentage above one hundred, no line or total is negative and no discount exceeds
      what it is deducted from. */
  lemma {:induction false} TotalsNonNegative(lines: seq<InvoiceLine>, discount: Option<Discount>, cur: Currency)
    requires ValidLines(lines) && ValidDiscount(discount) && ModestDiscounts(lines, discount)
    ensures var t := TotalsOf(lines, discount, cur);
            0 <= t.totalDiscount <= t.subtotal && 0 <= t.net <= t.totalTtc && 0 <= t.totalVat <= t.totalTtc
  {
    hide Grosses, LineDiscounts, NetsPre, AllocatedNets, VatsOn, DiscountAmount, Quantize, BreakdownOf, QuantizeEach, ValidLine,
         PercentagesAtMostHundred;
    if lines != [] {
      NetsPreNonNegative(lines);
      AllocatedNetsNonNegative(lines, discount);
      VatExactNonNegative(lines, AllocatedNets(lines, discount));
      NetsPreSum(lines);
      NonNegativeTotals(Sum(Grosses(lines)), Sum(LineDiscounts(lines)) + DocumentDiscount(lines, discount),
                        NetExact(lines, discount), VatExact(lines, discount), cur);
    }
  }

  lemma {:induction false} NonNegativeTotals(gross: real, disc: real, net: real, vat: real, cur: Currency)
    requires 0.0 <= disc <= gross && 0.0 <= net && 0.0 <= vat
    ensures 0 <= Quantize(disc, cur) <= Quantize(gross, cur)
    ensures 0 <= Quantize(net, cur) <= Quantize(net + vat, cur)
    ensures 0 <= Quantize(vat, cur) <= Quantize(net + vat, cur)
  {
    hide *;
    QuantizeZero(cur);
    QuantizeMonotone(0.0, disc, cur);
    QuantizeMonotone(disc, gross, cur);
    QuantizeMonotone(0.0, net, cur);
    QuantizeMonotone(0.0, vat, cur);
    QuantizeMonotone(net, net + vat, cur);
    QuantizeMonotone(vat, net + vat, cur);
  }

  lemma {:induction false} ProductNonNegative(a: real, b: real)
    requires a >= 0.0 && b >= 0.0
    ensures a * b >= 0.0
  {
  }

  lemma {:induction false} ShareAtMostNet(n: real, t: real, d: real, share: real)
    requires 0.0 <= n && 0.0 <= d <= t
    requires t > 0.0 ==> share == n / t
    ensures NetAfter(n, d, share) >= 0.0
  {
    if t > 0.0 {
      assert share * t == n && share >= 0.0;
      ProductNonNegative(share, t - d);
      assert share * (t - d) == n - d * share;
    }
  }
}
