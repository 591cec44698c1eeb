// The references of credit notes and quotes end in their numbers, whatever the company's prefix was when they were
// drawn, so the unique constraints on them never refuse a document.
module SeriesReferences {
  import opened Common
  import opened Calendar
  import opened Decimals
  import opened Numbering
  import opened Store
  import opened Transactions
  import opened Frames
  import opened LedgerInvariant

  /** The reference ends in a slash and the number, four digits at least. */
  ghost predicate EndsIn(reference: string, number: nat) {
    var digits := Padded(number, 4);
    && |reference| > |digits|
    && reference[|reference| - |digits|..] == digits
    && reference[|reference| - |digits| - 1] == '/'
  }

  lemma {:induction false} SuffixDigit(reference: string, digits: string, i: int)
    requires |digits| <= |reference| && reference[|reference| - |digits|..] == digits && AllDigits(digits)
    requires |reference| - |digits| <= i < |reference|
    ensures reference[i] != '/'
  {
    assert reference[i] == digits[i - (|reference| - |digits|)];
  }

  /** A reference tells its number. */
  lemma {:induction false} EndsInOne(reference: string, a: nat, b: nat)
    requires EndsIn(reference, a) && EndsIn(reference, b)
    ensures a == b
  {
    var x, y := Padded(a, 4), Padded(b, 4);
    hide Padded, AllDigits, ParseNat;
    if |x| < |y| {
      SuffixDigit(reference, y, |reference| - |x| - 1);
    } else if |y| < |x| {
      SuffixDigit(reference, x, |reference| - |y| - 1);
    } else {
      ParsePadded(a, 4);
      ParsePadded(b, 4);
    }
  }

  lemma {:induction false} FrontEnds(front: string, number: nat)
    ensures EndsIn(front + "/" + Padded(number, 4), number)
  {
    hide Padded;
  }

  lemma {:induction false} SeriesReferencesEnd(prefix: string, year: int, number: nat)
    ensures CreditNoteReference(prefix, year, number).Some? ==> EndsIn(CreditNoteReference(prefix, year, number).value, number)
    ensures QuoteReference(prefix, year, number).Some? ==> EndsIn(QuoteReference(prefix, year, number).value, number)
  {
    if 1000 <= year <= 9999 {
      FrontEnds("CN-" + prefix + Decimal(year), number);
      FrontEnds("Q-" + prefix + Decimal(year), number);
      hide EndsIn, Padded, Decimal;
    }
  }

  ghost predicate NotesEnd(notes: map<Id, CreditNote>) {
    forall n :: n in notes ==> EndsIn(notes[n].reference, notes[n].sequence)
  }

  ghost predicate QuotesEnd(quotes: map<Id, Quote>) {
    forall q :: q in quotes ==> EndsIn(quotes[q].reference, quotes[q].sequence)
  }

  ghost predicate SeriesRefsOk(s: Store) {
    NotesEnd(s.notes) && QuotesEnd(s.quotes)
  }

  lemma {:induction false} NoteStepEnds(s: Store, noteId: Id, id: Id, reason: string, date: Date)
    requires IssueCreditNote(s, noteId, id, reason, date).Ok? && NotesEnd(s.notes)
    ensures NotesEnd(IssueCreditNote(s, noteId, id, reason, date).value.notes)
  {
    var c := s.invoices[id].companyId;
    SeriesReferencesEnd(s.companies[c].prefix, date.year, Counter(s, c, CREDIT_NOTE_SERIES) + 1);
    hide EndsIn, CreditNoteReference, NoteKeyTaken, Blank, MirroredLines;
  }

  lemma {:induction false} QuoteStepEnds(s: Store, id: Id, r: QuoteRequest, today: Date)
    requires CreateQuote(s, id, r, today).Ok? && QuotesEnd(s.quotes)
    ensures QuotesEnd(CreateQuote(s, id, r, today).value.quotes)
  {
    var issued := Or(r.issueDate, today);
    SeriesReferencesEnd(s.companies[r.companyId].prefix, issued.year, Counter(s, r.companyId, QUOTE_SERIES) + 1);
    hide EndsIn, QuoteReference, QuoteKeyTaken, ValidRequest, ValidTotals;
  }

  lemma {:induction false} MoveKeepsEnds(s: Store, c: Command)
    requires (c.DoTransition? || c.DoDeleteQuote?) && QuotesEnd(s.quotes)
    ensures QuotesEnd(Step(s, c).quotes)
  {
    hide EndsIn, AllowedTransition, AddCompany, UpdateCompany, AddClient, UpdateClient, CreateDraft, Duplicate, DeleteDraft, IssueInvoice,
         VoidInvoice, IssueCreditNote, RecordPayment, CreateQuote;
  }

  lemma {:induction false} SameTablesEnd(s: Store, c: Command)
    requires !c.DoCreditNote? && !c.DoCreateQuote? && !c.DoTransition? && !c.DoDeleteQuote?
    ensures Step(s, c).notes == s.notes && Step(s, c).quotes == s.quotes
  {
    StepFrame(s, c);
    hide Step;
  }

  lemma {:induction false} StepIs(s: Store, c: Command)
    ensures Execute(s, c).Ok? ==> Step(s, c) == Execute(s, c).value
    ensures Execute(s, c).Err? ==> Step(s, c) == s
    ensures c.DoCreditNote? ==> Execute(s, c) == IssueCreditNote(s, c.id, c.invoiceId, c.reason, c.date)
    ensures c.DoCreateQuote? ==> Execute(s, c) == CreateQuote(s, c.id, c.quote, c.today)
  {
    hide IssueCreditNote, CreateQuote, AddCompany, UpdateCompany, AddClient, UpdateClient, CreateDraft, Duplicate, DeleteDraft, IssueInvoice,
         VoidInvoice, RecordPayment, TransitionQuote, DeleteQuote;
  }

  lemma {:induction false} StepKeepsSeriesRefs(s: Store, c: Command)
    requires SeriesRefsOk(s)
    ensures SeriesRefsOk(Step(s, c))
  {
    hide EndsIn, Step, Execute, NotesEnd, QuotesEnd;
    StepFrame(s, c);
    StepIs(s, c);
    match c
    case DoCreditNote(id, invoiceId, reason, date) =>
      if Execute(s, c).Ok? { NoteStepEnds(s, id, invoiceId, reason, date); }
    case DoCreateQuote(id, quote, today) =>
      if Execute(s, c).Ok? { QuoteStepEnds(s, id, quote, today); }
    case DoTransition(_, _) => MoveKeepsEnds(s, c);
    case DoDeleteQuote(_) => MoveKeepsEnds(s, c);
    case _ => SameTablesEnd(s, c);
  }

  lemma {:induction false} RunKeepsSeriesRefs(s: Store, cs: seq<Command>)
    requires SeriesRefsOk(s)
    ensures SeriesRefsOk(Run(s, cs))
  {
    hide SeriesRefsOk, Step;
    if cs != [] {
      RunKeepsSeriesRefs(s, cs[..|cs| - 1]);
      StepKeepsSeriesRefs(Run(s, cs[..|cs| - 1]), cs[|cs| - 1]);
    }
  }

  /** Every ledger an empty organization can reach. */
  lemma {:induction false} ReachableSeriesRefs(cs: seq<Command>)
    ensures Inv(Run(EMPTY, cs)) && SeriesRefsOk(Run(EMPTY, cs))
  {
    hide Inv, Run;
    var empty := EMPTY;
    EmptyStoreOk(empty);
    RunKeepsInv(empty, cs);
    RunKeepsSeriesRefs(empty, cs);
  }

  lemma {:induction false} NoteNumberUnused(s: Store, other: Id)
    requires SeriesOk(s) && other in s.notes
    ensures s.notes[other].sequence <= Counter(s, s.notes[other].companyId, CREDIT_NOTE_SERIES)
  {
    hide NoGap;
    assert other in NoteTickets(s.notes);
  }

  lemma {:induction false} QuoteNumberUnused(s: Store, other: Id)
    requires SeriesOk(s) && other in s.quotes
    ensures s.quotes[other].sequence <= Counter(s, s.quotes[other].companyId, QUOTE_SERIES)
  {
    hide NoGap;
    assert other in QuoteTickets(s.quotes);
  }

  /** So the constraint on (company, reference) and the one on (company, number) let every new document through. */
  lemma {:induction false} NextNoteIsFree(s: Store, note: CreditNote, prefix: string, year: int)
    requires Inv(s) && SeriesRefsOk(s) && note.sequence == Counter(s, note.companyId, CREDIT_NOTE_SERIES) + 1
    requires CreditNoteReference(prefix, year, note.sequence) == Some(note.reference)
    ensures !NoteKeyTaken(s.notes, note)
  {
    StoreFacts(s);
    SeriesReferencesEnd(prefix, year, note.sequence);
    hide Inv, EndsIn, CreditNoteReference, InvoicesOk, PaymentsOk, NotesOk, SeriesOk;
    forall other | other in s.notes && s.notes[other].companyId == note.companyId
      ensures s.notes[other].sequence != note.sequence && s.notes[other].reference != note.reference
    {
      NoteNumberUnused(s, other);
      if s.notes[other].reference == note.reference {
        EndsInOne(note.reference, s.notes[other].sequence, note.sequence);
      }
    }
  }

  lemma {:induction false} NextQuoteIsFree(s: Store, quote: Quote, prefix: string, year: int)
    requires Inv(s) && SeriesRefsOk(s) && quote.sequence == Counter(s, quote.companyId, QUOTE_SERIES) + 1
    requires QuoteReference(prefix, year, quote.sequence) == Some(quote.reference)
    ensures !QuoteKeyTaken(s.quotes, quote)
  {
    QuoteIds(s);
    SeriesReferencesEnd(prefix, year, quote.sequence);
    hide Inv, EndsIn, QuoteReference, QuotesOk, SeriesOk;
    forall other | other in s.quotes && s.quotes[other].companyId == quote.companyId
      ensures s.quotes[other].sequence != quote.sequence && s.quotes[other].reference != quote.reference
    {
      QuoteNumberUnused(s, other);
      if s.quotes[other].reference == quote.reference {
        EndsInOne(quote.reference, s.quotes[other].sequence, quote.sequence);
      }
    }
  }
}
