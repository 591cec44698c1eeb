// Document lines and VAT categories (core/models/invoice.py, core/models/credit_note.py,
// core/models/tax.py).
module Lines {
  import opened Common
  import opened Money

  datatype VatCategory = Standard | Zero | Exempt | ReverseCharge | IntraEu | Export | NotSubject

  /** Position of the EN 16931 code in string order: AE, E, G, K, O, S, Z. */
  function CodeOrder(c: VatCategory): nat {
    match c
    case ReverseCharge => 0
    case Exempt => 1
    case Export => 2
    case IntraEu => 3
    case NotSubject => 4
    case Standard => 5
    case Zero => 6
  }

  datatype SupplyKind = Goods | Services

  datatype InvoiceLine = InvoiceLine(
    lineNumber: nat,
    description: string,
    quantity: real,
    unitPrice: real,
    productId: Option<string>,
    supplyKind: SupplyKind,
    category: VatCategory,
    rate: real,
    discount: Option<Discount>)

  /** The field constraints the domain model validates. */
  predicate ValidLine(line: InvoiceLine) {
    && line.lineNumber >= 1
    && line.description != ""
    && line.quantity > 0.0
    && line.unitPrice >= 0.0
    && 0.0 <= line.rate <= 100.0
    && ValidDiscount(line.discount)
  }

  predicate ValidLines(lines: seq<InvoiceLine>) {
    forall line :: line in lines ==> ValidLine(line)
  }

  /** The VAT breakdown key of EN 16931: category and rate together. */
  datatype VatKey = VatKey(category: VatCategory, rate: real)

  function KeyOf(line: InvoiceLine): VatKey {
    VatKey(line.category, line.rate)
  }

  function KeysOf(lines: seq<InvoiceLine>): (r: seq<VatKey>)
    ensures |r| == |lines|
  {
    seq(|lines|, i requires 0 <= i < |lines| => KeyOf(lines[i]))
  }

  predicate KeyBefore(a: VatKey, b: VatKey) {
    CodeOrder(a.category) < CodeOrder(b.category)
    || (a.category == b.category && a.rate < b.rate)
  }
}
