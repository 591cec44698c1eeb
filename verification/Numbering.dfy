// core/rules/numbering.py and the scope names of core/repository/sequence_repo.py: how numbers
// become references, and why references can be told apart.
module Numbering {
  import opened Common
  import opened Decimals
  import opened Text

  // ------------------------------------------------------------------ client_initials

  predicate IsAlnum(c: char) {
    'A' <= c <= 'Z' || 'a' <= c <= 'z' || IsDigit(c)
  }

  predicate AllAlnum(s: string) {
    forall i :: 0 <= i < |s| ==> IsAlnum(s[i])
  }

  function AlnumPrefix(s: string): (w: string)
    ensures w <= s && AllAlnum(w)
    ensures s != "" && IsAlnum(s[0]) ==> w != ""
  {
    if s == "" || !IsAlnum(s[0]) then "" else [s[0]] + AlnumPrefix(s[1..])
  }

  /** The non-empty pieces between runs of non-alphanumerics. */
  function Words(s: string): (ws: seq<string>)
    ensures forall w :: w in ws ==> w != "" && AllAlnum(w)
    decreases |s|
  {
    if s == "" then []
    else if !IsAlnum(s[0]) then Words(s[1..])
    else var w := AlnumPrefix(s); [w] + Words(s[|w|..])
  }

  predicate IsInitial(c: char) {
    'A' <= c <= 'Z' || IsDigit(c)
  }

  /** Two upper-case characters for a name whose diacritics have been folded. */
  function ClientInitials(folded: string): (r: string)
    ensures |r| == 2 && IsInitial(r[0]) && IsInitial(r[1])
  {
    var words := Words(folded);
    if words == [] then "XX"
    else
      assert forall i :: 0 <= i < |words| ==> words[i] in words;
      var core :=
        if |words| == 1 then Upper(if |words[0]| < 2 then words[0] else words[0][..2])
        else Upper([words[0][0], words[1][0]]);
      (core + "XX")[..2]
  }

  /** Nothing a word could start with. */
  predicate NoAlnum(s: string) {
    forall i :: 0 <= i < |s| ==> !IsAlnum(s[i])
  }

  lemma {:induction false} PrefixIsWord(w: string, rest: string)
    requires AllAlnum(w) && (rest == "" || !IsAlnum(rest[0]))
    ensures AlnumPrefix(w + rest) == w
  {
    if w == "" {
      assert w + rest == rest;
    } else {
      PrefixIsWord(w[1..], rest);
      assert (w + rest)[1..] == w[1..] + rest;
    }
  }

  lemma {:induction false} SeparatorsSkipped(lead: string, s: string)
    requires NoAlnum(lead)
    ensures Words(lead + s) == Words(s)
  {
    if lead == "" {
      assert lead + s == s;
    } else {
      SeparatorsSkipped(lead[1..], s);
      assert (lead + s)[1..] == lead[1..] + s;
    }
  }

  lemma {:induction false} FirstWord(w: string, rest: string)
    requires AllAlnum(w) && w != "" && (rest == "" || !IsAlnum(rest[0]))
    ensures Words(w + rest) == [w] + Words(rest)
  {
    PrefixIsWord(w, rest);
    assert (w + rest)[|w|..] == rest;
    assert (w + rest)[0] == w[0];
  }

  /** How a name is read, separators in front of it aside: a name of one word gives its first two characters,
      a single one followed by X; longer names give the first character of their first two words; a name
      without letters and digits gives XX. */
  lemma {:induction false} InitialsRead(lead: string, w: string, sep: string, next: string)
    requires NoAlnum(lead) && NoAlnum(sep) && w != "" && AllAlnum(w)
    requires next != "" ==> sep != "" && IsAlnum(next[0])
    ensures ClientInitials(lead + w + sep + next) ==
      if next != "" then [UpperChar(w[0]), UpperChar(next[0])]
      else if |w| >= 2 then [UpperChar(w[0]), UpperChar(w[1])]
      else [UpperChar(w[0]), 'X']
    ensures ClientInitials(lead) == "XX"
  {
    hide *;
    var name := lead + w + sep + next;
    WordsRead(lead, w, sep, next);
    InitialsOfWords(name);
    InitialsOfWords(lead);
    if next != "" {
      StartsWith(next);
    }
  }

  lemma {:induction false} WordsRead(lead: string, w: string, sep: string, next: string)
    requires NoAlnum(lead) && NoAlnum(sep) && w != "" && AllAlnum(w)
    requires next != "" ==> sep != "" && IsAlnum(next[0])
    ensures Words(lead + w + sep + next) == [w] + Words(next) && Words(lead) == [] && Words("") == []
  {
    assert lead + w + sep + next == lead + (w + (sep + next));
    SeparatorsSkipped(lead, w + (sep + next));
    SeparatorsSkipped(lead, "");
    assert lead + "" == lead;
    FirstWord(w, sep + next);
    SeparatorsSkipped(sep, next);
    hide AlnumPrefix;
  }

  lemma {:induction false} InitialsOfWords(folded: string)
    ensures var ws := Words(folded);
            && (ws == [] ==> ClientInitials(folded) == "XX")
            && (|ws| == 1 && |ws[0]| >= 2 ==> ClientInitials(folded) == [UpperChar(ws[0][0]), UpperChar(ws[0][1])])
            && (|ws| == 1 && |ws[0]| == 1 ==> ClientInitials(folded) == [UpperChar(ws[0][0]), 'X'])
            && (|ws| >= 2 && ws[0] != "" && ws[1] != "" ==> ClientInitials(folded) == [UpperChar(ws[0][0]), UpperChar(ws[1][0])])
  {
    hide Words, UpperChar;
  }

  lemma {:induction false} StartsWith(s: string)
    requires s != "" && IsAlnum(s[0])
    ensures Words(s) != [] && Words(s)[0] != "" && Words(s)[0][0] == s[0]
  {
    var w := AlnumPrefix(s);
    assert w == s[..|w|];
  }

  // ------------------------------------------------------------------ references

  /** `format_display_reference`; None where the code raises ValueError. */
  function DisplayReference(prefix: string, folded: string, month: int, bucketSeq: int, year: int): Option<string> {
    if !(1 <= month <= 12) || bucketSeq < 1 || !(1000 <= year <= 9999) then None
    else Some(prefix + ClientInitials(folded) + Padded(month, 2) + Padded(bucketSeq, 2) + Decimal(year))
  }

  function CreditNoteReference(prefix: string, year: int, seqGlobal: int): Option<string> {
    if seqGlobal < 1 || !(1000 <= year <= 9999) then None
    else Some("CN-" + prefix + Decimal(year) + "/" + Padded(seqGlobal, 4))
  }

  function QuoteReference(prefix: string, year: int, seqGlobal: int): Option<string> {
    if seqGlobal < 1 || !(1000 <= year <= 9999) then None
    else Some("Q-" + prefix + Decimal(year) + "/" + Padded(seqGlobal, 4))
  }

  datatype DisplayParts = DisplayParts(initials: string, month: nat, bucketSeq: nat, year: nat)

  /** Reading a display reference back: both ends have a fixed width, the middle is the number. */
  function DecodeDisplay(prefix: string, reference: string): Option<DisplayParts> {
    var p, n := |prefix|, |reference|;
    if n < p + 8 || !AllDigits(reference[p + 2..]) then None
    else Some(DisplayParts(reference[p..p + 2], ParseNat(reference[p + 2..p + 4]),
                           ParseNat(reference[p + 4..n - 4]), ParseNat(reference[n - 4..])))
  }

  /** Every issued reference decodes to the initials, month, sequence and year it was made from,
      however long the number has grown. */
  lemma {:induction false} DisplayRoundTrip(prefix: string, folded: string, month: int, bucketSeq: int, year: int)
    requires DisplayReference(prefix, folded, month, bucketSeq, year).Some?
    ensures DecodeDisplay(prefix, DisplayReference(prefix, folded, month, bucketSeq, year).value)
         == Some(DisplayParts(ClientInitials(folded), month, bucketSeq, year))
  {
    hide DecodeDisplay, ClientInitials, Padded, Decimal, ParseNat;
    var ini, mm, ss, yyyy := ClientInitials(folded), Padded(month, 2), Padded(bucketSeq, 2), Decimal(year);
    PowersOfTen();
    PaddedLength(month, 2);
    DecimalLength(year, 4);
    hide DisplayReference, Pow10;
    ParsePadded(month, 2);
    ParsePadded(bucketSeq, 2);
    ParseDecimal(year);
    DecodeParts(prefix, ini, mm, ss, yyyy);
  }

  lemma {:induction false} PowersOfTen()
    ensures Pow10(2) == 100 && Pow10(3) == 1000 && Pow10(4) == 10000
  {
  }

  /** Fixed widths at both ends tell the parts apart. */
  lemma {:induction false} DecodeParts(prefix: string, ini: string, mm: string, ss: string, yyyy: string)
    requires |ini| == 2 && |mm| == 2 && |yyyy| == 4 && AllDigits(mm) && AllDigits(ss) && AllDigits(yyyy)
    ensures DecodeDisplay(prefix, prefix + ini + mm + ss + yyyy)
         == Some(DisplayParts(ini, ParseNat(mm), ParseNat(ss), ParseNat(yyyy)))
  {
    hide ParseNat;
    PartsOfReference(prefix, ini, mm, ss, yyyy);
  }

  lemma {:induction false} PartsOfReference(prefix: string, ini: string, mm: string, ss: string, yyyy: string)
    requires |ini| == 2 && |mm| == 2 && |yyyy| == 4 && AllDigits(mm) && AllDigits(ss) && AllDigits(yyyy)
    ensures var r := prefix + ini + mm + ss + yyyy;
            var p, n := |prefix|, |r|;
            && n >= p + 8 && AllDigits(r[p + 2..])
            && r[p..p + 2] == ini && r[p + 2..p + 4] == mm && r[p + 4..n - 4] == ss && r[n - 4..] == yyyy
  {
    hide IsDigit;
    var r := prefix + ini + mm + ss + yyyy;
    assert r[|prefix| + 2..] == mm + ss + yyyy;
  }

  /** A quote's or credit note's number can be read back from its reference. */
  lemma {:induction false} SeriesReferenceInjective(head: string, prefix: string, year: int, year': int, n: int, n': int)
    requires 1000 <= year <= 9999 && 1000 <= year' <= 9999 && n >= 1 && n' >= 1
    requires head + prefix + Decimal(year) + "/" + Padded(n, 4) == head + prefix + Decimal(year') + "/" + Padded(n', 4)
    ensures n == n'
  {
    var front, front' := head + prefix + Decimal(year) + "/", head + prefix + Decimal(year') + "/";
    assert Pow10(4) == 10000 && Pow10(3) == 1000;
    DecimalLength(year, 4);
    DecimalLength(year', 4);
    assert |front| == |front'|;
    assert Padded(n, 4) == (front + Padded(n, 4))[|front|..];
    assert Padded(n', 4) == (front' + Padded(n', 4))[|front'|..];
    ParsePadded(n, 4);
    ParsePadded(n', 4);
  }

  // ------------------------------------------------------------------ counter scopes

  const INVOICE_SERIES := "invoice"
  const CREDIT_NOTE_SERIES := "credit_note"
  const QUOTE_SERIES := "quote"

  /** `monthly_bucket`. */
  function MonthlyBucket(clientId: string, year: nat, month: nat): string {
    "bucket:" + clientId + ":" + Padded(year, 4) + "-" + Padded(month, 2)
  }

  lemma {:induction false} BucketIsNoSeries(clientId: string, year: nat, month: nat)
    ensures MonthlyBucket(clientId, year, month) !in {INVOICE_SERIES, CREDIT_NOTE_SERIES, QUOTE_SERIES}
  {
    assert MonthlyBucket(clientId, year, month)[0] == 'b';
    assert INVOICE_SERIES[0] == 'i' && CREDIT_NOTE_SERIES[0] == 'c' && QUOTE_SERIES[0] == 'q';
  }

  /** Different clients, years or months never share a counter, whatever characters the id has. */
  lemma {:induction false} BucketsDiffer(c: string, y: nat, m: nat, c': string, y': nat, m': nat)
    requires y <= 9999 && y' <= 9999 && m <= 12 && m' <= 12
    requires MonthlyBucket(c, y, m) == MonthlyBucket(c', y', m')
    ensures c == c' && y == y' && m == m'
  {
    assert Pow10(2) == 100 && Pow10(3) == 1000 && Pow10(4) == 10000;
    PaddedLength(y, 4);
    PaddedLength(y', 4);
    PaddedLength(m, 2);
    PaddedLength(m', 2);
    var b, b' := MonthlyBucket(c, y, m), MonthlyBucket(c', y', m');
    var n := |b|;
    assert b[n - 2..] == Padded(m, 2) && b'[n - 2..] == Padded(m', 2);
    assert b[n - 7..n - 3] == Padded(y, 4) && b'[n - 7..n - 3] == Padded(y', 4);
    assert b[7..n - 8] == c && b'[7..n - 8] == c';
    ParsePadded(y, 4);
    ParsePadded(y', 4);
    ParsePadded(m, 2);
    ParsePadded(m', 2);
  }
}
