// core/services/invoice_compliance.py: the gate in front of issue. The checks on the supplier's and
// customer's identity are an input here; the checks on the lines and the dates are modelled.
module Compliance {
  import opened Common
  import opened Calendar
  import opened Decimals
  import opened Lines
  import opened Text

  datatype Severity = Blocking | Advisory
  datatype Finding = Finding(field: string, severity: Severity, messageKey: string)

  function BlockingOf(findings: seq<Finding>): seq<Finding> {
    if findings == [] then []
    else
      var last := findings[|findings| - 1];
      BlockingOf(findings[..|findings| - 1]) + if last.severity.Blocking? then [last] else []
  }

  /** What the line checks read of the two parties. */
  datatype Parties = Parties(
    supplierCountry: string, customerCountry: string, customerIsBusiness: bool, customerHasVat: bool)

  predicate ZeroRated(c: VatCategory) {
    !c.Standard?
  }

  /** `legal_mention_for(...) is not None`, in any language: the table falls back to French. */
  predicate HasLegalMention(c: VatCategory) {
    c.ReverseCharge? || c.IntraEu? || c.Export? || c.Exempt?
  }

  predicate IsEuMember(country: string) {
    country in {"AT", "BE", "BG", "HR", "CY", "CZ", "DK", "EE", "FI", "FR", "DE", "GR", "HU", "IE",
                "IT", "LV", "LT", "LU", "MT", "NL", "PL", "PT", "RO", "SK", "SI", "ES", "SE"}
  }

  function LineField(line: InvoiceLine): string {
    "line." + Decimal(line.lineNumber) + ".vat"
  }

  function Flag(found: bool, line: InvoiceLine, severity: Severity, key: string): seq<Finding> {
    if found then [Finding(LineField(line), severity, key)] else []
  }

  /** The five checks on one line, in order. */
  function LineFindings(line: InvoiceLine, p: Parties): seq<Finding> {
    Flag(ZeroRated(line.category) && line.rate > 0.0, line, Blocking, "errZeroRatedLineTaxed")
    + Flag(ZeroRated(line.category) && !line.category.Zero? && !HasLegalMention(line.category), line, Blocking, "errMissingLegalMention")
    + Flag(line.category.ReverseCharge? && p.customerCountry == p.supplierCountry, line, Blocking, "errReverseChargeDomestic")
    + Flag(line.category.IntraEu? && !IsEuMember(p.customerCountry), line, Blocking, "errIntraEuOutsideEu")
    + Flag(line.category.Standard? && p.customerIsBusiness && p.customerHasVat
           && p.customerCountry != p.supplierCountry && IsEuMember(p.customerCountry),
           line, Advisory, "warnDomesticVatToEuBusiness")
  }

  function AllLineFindings(lines: seq<InvoiceLine>, p: Parties): seq<Finding> {
    if lines == [] then []
    else AllLineFindings(lines[..|lines| - 1], p) + LineFindings(lines[|lines| - 1], p)
  }

  function CheckedLines(lines: seq<InvoiceLine>, p: Parties): seq<Finding> {
    if lines == [] then [Finding("lines", Blocking, "errNoLines")] else AllLineFindings(lines, p)
  }

  method CheckLines(lines: seq<InvoiceLine>, p: Parties) returns (findings: seq<Finding>)
    ensures findings == CheckedLines(lines, p)
  {
    hide IsEuMember, AllLineFindings, LineField;
    findings := [];
    NoFindings(p);
    if lines == [] {
      findings := findings + [Finding("lines", Blocking, "errNoLines")];
      return;
    }
    for i := 0 to |lines|
      invariant findings == AllLineFindings(lines[..i], p)
    {
      ghost var before := findings;
      var line := lines[i];
      var category := line.category;
      if ZeroRated(category) && line.rate > 0.0 {
        findings := findings + [Finding(LineField(line), Blocking, "errZeroRatedLineTaxed")];
      }
      if ZeroRated(category) && !category.Zero? && !HasLegalMention(category) {
        findings := findings + [Finding(LineField(line), Blocking, "errMissingLegalMention")];
      }
      if category.ReverseCharge? && p.customerCountry == p.supplierCountry {
        findings := findings + [Finding(LineField(line), Blocking, "errReverseChargeDomestic")];
      }
      if category.IntraEu? && !IsEuMember(p.customerCountry) {
        findings := findings + [Finding(LineField(line), Blocking, "errIntraEuOutsideEu")];
      }
      if category.Standard? && p.customerIsBusiness && p.customerHasVat
         && p.customerCountry != p.supplierCountry && IsEuMember(p.customerCountry) {
        findings := findings + [Finding(LineField(line), Advisory, "warnDomesticVatToEuBusiness")];
      }
      assert findings == before + LineFindings(line, p);
      AllFindingsNext(lines, i, p);
    }
    assert lines[..|lines|] == lines;
  }

  lemma {:induction false} NoFindings(p: Parties)
    ensures AllLineFindings([], p) == []
  {
  }

  lemma {:induction false} AllFindingsNext(lines: seq<InvoiceLine>, i: nat, p: Parties)
    requires i < |lines|
    ensures AllLineFindings(lines[..i + 1], p) == AllLineFindings(lines[..i], p) + LineFindings(lines[i], p)
  {
    hide LineFindings;
    assert lines[..i + 1][..i] == lines[..i];
  }

  function CheckedDocument(issueDate: Date, dueDate: Option<Date>, termsBlank: bool): seq<Finding> {
    (if dueDate.None? then [Finding("invoice.due_date", Advisory, "warnNoDueDate")]
     else if Before(dueDate.value, issueDate) then [Finding("invoice.due_date", Blocking, "errDueBeforeIssue")]
     else [])
    + if termsBlank then [Finding("invoice.payment_terms", Advisory, "warnNoPaymentTerms")] else []
  }

  /** `check_invoice_compliance`: party findings first, then lines, then the document. */
  function CheckedInvoice(party: seq<Finding>, lines: seq<InvoiceLine>, p: Parties,
                          issueDate: Date, dueDate: Option<Date>, termsBlank: bool): seq<Finding> {
    party + CheckedLines(lines, p) + CheckedDocument(issueDate, dueDate, termsBlank)
  }

  // ------------------------------------------------------------------ what a clean verdict means

  predicate LineLawful(line: InvoiceLine, p: Parties) {
    && (ZeroRated(line.category) ==> line.rate <= 0.0)
    && !line.category.NotSubject?
    && (line.category.ReverseCharge? ==> p.customerCountry != p.supplierCountry)
    && (line.category.IntraEu? ==> IsEuMember(p.customerCountry))
  }

  lemma {:induction false} BlockingAppend(a: seq<Finding>, b: seq<Finding>)
    ensures BlockingOf(a + b) == BlockingOf(a) + BlockingOf(b)
  {
    if b == [] {
      assert a + b == a;
    } else {
      var n := |b| - 1;
      assert (a + b)[..|a| + n] == a + b[..n];
      BlockingAppend(a, b[..n]);
    }
  }

  lemma {:induction false} FlagBlocks(found: bool, line: InvoiceLine, severity: Severity, key: string)
    ensures BlockingOf(Flag(found, line, severity, key)) == [] <==> !found || severity.Advisory?
  {
    if found {
      var f := Finding(LineField(line), severity, key);
      assert [f][..0] == [];
    }
  }

  lemma {:induction false} LineBlocksIff(line: InvoiceLine, p: Parties)
    ensures BlockingOf(LineFindings(line, p)) == [] <==> LineLawful(line, p)
  {
    hide IsEuMember, LineField;
    var taxed := Flag(ZeroRated(line.category) && line.rate > 0.0, line, Blocking, "errZeroRatedLineTaxed");
    var mention := Flag(ZeroRated(line.category) && !line.category.Zero? && !HasLegalMention(line.category), line, Blocking, "errMissingLegalMention");
    var reverse := Flag(line.category.ReverseCharge? && p.customerCountry == p.supplierCountry, line, Blocking, "errReverseChargeDomestic");
    var intra := Flag(line.category.IntraEu? && !IsEuMember(p.customerCountry), line, Blocking, "errIntraEuOutsideEu");
    var standard := line.category.Standard? && p.customerIsBusiness && p.customerHasVat
                    && p.customerCountry != p.supplierCountry && IsEuMember(p.customerCountry);
    var advisory := Flag(standard, line, Advisory, "warnDomesticVatToEuBusiness");
    FlagBlocks(ZeroRated(line.category) && line.rate > 0.0, line, Blocking, "errZeroRatedLineTaxed");
    FlagBlocks(ZeroRated(line.category) && !line.category.Zero? && !HasLegalMention(line.category), line, Blocking, "errMissingLegalMention");
    FlagBlocks(line.category.ReverseCharge? && p.customerCountry == p.supplierCountry, line, Blocking, "errReverseChargeDomestic");
    FlagBlocks(line.category.IntraEu? && !IsEuMember(p.customerCountry), line, Blocking, "errIntraEuOutsideEu");
    FlagBlocks(standard, line, Advisory, "warnDomesticVatToEuBusiness");
    BlockingAppend(taxed, mention);
    BlockingAppend(taxed + mention, reverse);
    BlockingAppend(taxed + mention + reverse, intra);
    BlockingAppend(taxed + mention + reverse + intra, advisory);
  }

  lemma {:induction false} LinesBlockIff(lines: seq<InvoiceLine>, p: Parties)
    ensures BlockingOf(AllLineFindings(lines, p)) == [] <==> forall line :: line in lines ==> LineLawful(line, p)
  {
    hide IsEuMember;
    if lines != [] {
      var n := |lines| - 1;
      LinesBlockIff(lines[..n], p);
      LineBlocksIff(lines[n], p);
      BlockingAppend(AllLineFindings(lines[..n], p), LineFindings(lines[n], p));
      assert lines == lines[..n] + [lines[n]];
    }
  }

  /** The whole gate: an invoice passes exactly when the parties pass, it has lines, every line is
      lawful, and a due date, if there is one, is not before the issue date. In particular no
      invoice with a NOT_SUBJECT line can ever be issued: that category has no legal mention. */
  lemma {:induction false} GateOpensIff(party: seq<Finding>, lines: seq<InvoiceLine>, p: Parties,
                                        issueDate: Date, dueDate: Option<Date>, termsBlank: bool)
    ensures BlockingOf(CheckedInvoice(party, lines, p, issueDate, dueDate, termsBlank)) == []
        <==> && BlockingOf(party) == []
             && lines != []
             && (forall line :: line in lines ==> LineLawful(line, p))
             && (dueDate.Some? ==> NotAfter(issueDate, dueDate.value))
  {
    hide IsEuMember;
    var doc := CheckedDocument(issueDate, dueDate, termsBlank);
    BlockingAppend(party, CheckedLines(lines, p));
    BlockingAppend(party + CheckedLines(lines, p), doc);
    LinesBlockIff(lines, p);
    DocumentBlocksIff(issueDate, dueDate, termsBlank);
    if lines == [] {
      var f := Finding("lines", Blocking, "errNoLines");
      assert [f][..0] == [];
    }
  }

  lemma {:induction false} DocumentBlocksIff(issueDate: Date, dueDate: Option<Date>, termsBlank: bool)
    ensures BlockingOf(CheckedDocument(issueDate, dueDate, termsBlank)) == []
        <==> (dueDate.Some? ==> NotAfter(issueDate, dueDate.value))
  {
    var dates :=
      if dueDate.None? then [Finding("invoice.due_date", Advisory, "warnNoDueDate")]
      else if Before(dueDate.value, issueDate) then [Finding("invoice.due_date", Blocking, "errDueBeforeIssue")]
      else [];
    var terms := if termsBlank then [Finding("invoice.payment_terms", Advisory, "warnNoPaymentTerms")] else [];
    BlockingAppend(dates, terms);
    assert dates != [] ==> dates[..0] == [];
    assert terms != [] ==> terms[..0] == [];
  }

  /** The twenty-seven member states, by their first letters. */
  lemma {:induction false} MemberStates(c: string)
    requires |c| == 2
    ensures IsEuMember(c) <==>
      || Spells(c, 'A', 'T') || Spells(c, 'B', 'E') || Spells(c, 'B', 'G') || Spells(c, 'C', 'Y') || Spells(c, 'C', 'Z')
      || Spells(c, 'D', 'E') || Spells(c, 'D', 'K') || Spells(c, 'E', 'E') || Spells(c, 'E', 'S') || Spells(c, 'F', 'I')
      || Spells(c, 'F', 'R') || Spells(c, 'G', 'R') || Spells(c, 'H', 'R') || Spells(c, 'H', 'U') || Spells(c, 'I', 'E')
      || Spells(c, 'I', 'T') || Spells(c, 'L', 'T') || Spells(c, 'L', 'U') || Spells(c, 'L', 'V') || Spells(c, 'M', 'T')
      || Spells(c, 'N', 'L') || Spells(c, 'P', 'L') || Spells(c, 'P', 'T') || Spells(c, 'R', 'O') || Spells(c, 'S', 'E')
      || Spells(c, 'S', 'I') || Spells(c, 'S', 'K')
  {
    assert c == [c[0], c[1]];
  }

  function One(b: bool): nat {
    if b then 1 else 0
  }

  /** What the checks of a line find, one finding for each of the five reasons that applies: a taxed line of a category
      other than the standard one, a category that needs a mention and has none, reverse charge at home,
      intra-Community supply to outside the Union, and, as advice only, domestic VAT to a business of another member
      state. */
  lemma {:induction false} FindingsListed(line: InvoiceLine, p: Parties)
    ensures var fs, field, c := LineFindings(line, p), LineField(line), line.category;
            var taxed, unmentioned := c != Standard && line.rate > 0.0, c == NotSubject;
            var athome, outside := c == ReverseCharge && p.customerCountry == p.supplierCountry, c == IntraEu && !IsEuMember(p.customerCountry);
            var abroad := c == Standard && p.customerIsBusiness && p.customerHasVat && p.customerCountry != p.supplierCountry
                          && IsEuMember(p.customerCountry);
            && (taxed ==> Finding(field, Blocking, "errZeroRatedLineTaxed") in fs)
            && (unmentioned ==> Finding(field, Blocking, "errMissingLegalMention") in fs)
            && (athome ==> Finding(field, Blocking, "errReverseChargeDomestic") in fs)
            && (outside ==> Finding(field, Blocking, "errIntraEuOutsideEu") in fs)
            && (abroad ==> Finding(field, Advisory, "warnDomesticVatToEuBusiness") in fs)
            && |fs| == One(taxed) + One(unmentioned) + One(athome) + One(outside) + One(abroad)
  {
    hide IsEuMember, LineField;
  }
}
