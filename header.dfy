/** The header fields and the whole result of `parse_japanese_invoice`
    (process_invoice.py:228-273). Every field has an ordered list of patterns searched in the
    space-joined text of all tokens; the first pattern that matches gives the field its value,
    stripped, and for the total amount cleaned. A date fallback then fills the two date fields
    from the date-shaped substrings when they are still unset, and the line items are parsed,
    a failure giving none. Each regular expression is an abstract matcher: the policy is what
    is modelled, not the regex engine. */
module Header {
  import opened Basics
  import opened Amount
  import opened Tokens
  import opened TokenFilter
  import opened LineItems

  /** The header keys of the result (process_invoice.py:231-235). */
  datatype Field = InvoiceNumber | InvoiceDate | DueDate | VendorName | TotalAmount

  /** The order of the keys of the pattern table (process_invoice.py:240-246), which is the
      order the loop visits them in. */
  const FieldOrder: seq<Field> := [InvoiceNumber, InvoiceDate, DueDate, VendorName, TotalAmount]

  /** `re.search(pattern, text)` followed by `match.group(match.lastindex or 1)`: the captured
      group of the leftmost match, or None when the pattern does not match. */
  type Matcher = string -> Option<string>

  /** The header values of the result dict, one per key; None is Python's None. */
  datatype HeaderFields = HeaderFields(
    invoiceNumber: Option<string>,
    invoiceDate: Option<string>,
    dueDate: Option<string>,
    vendorName: Option<string>,
    totalAmount: Option<string>)

  /** `output[field]`. */
  function Get(h: HeaderFields, f: Field): Option<string> {
    match f
    case InvoiceNumber => h.invoiceNumber
    case InvoiceDate => h.invoiceDate
    case DueDate => h.dueDate
    case VendorName => h.vendorName
    case TotalAmount => h.totalAmount
  }

  /** `output[field] = value`. */
  function Set(h: HeaderFields, f: Field, v: Option<string>): (r: HeaderFields)
    ensures Get(r, f) == v
    ensures forall g: Field :: g != f ==> Get(r, g) == Get(h, g)
  {
    match f
    case InvoiceNumber => h.(invoiceNumber := v)
    case InvoiceDate => h.(invoiceDate := v)
    case DueDate => h.(dueDate := v)
    case VendorName => h.(vendorName := v)
    case TotalAmount => h.(totalAmount := v)
  }

  /** Header values are equal when they agree on every key. */
  lemma HeaderEquality(h1: HeaderFields, h2: HeaderFields)
    requires forall f: Field :: Get(h1, f) == Get(h2, f)
    ensures h1 == h2
  {
    assert Get(h1, InvoiceNumber) == Get(h2, InvoiceNumber);
    assert Get(h1, InvoiceDate) == Get(h2, InvoiceDate);
    assert Get(h1, DueDate) == Get(h2, DueDate);
    assert Get(h1, VendorName) == Get(h2, VendorName);
    assert Get(h1, TotalAmount) == Get(h2, TotalAmount);
  }

  /** The loop visits every key exactly once. */
  lemma FieldOrderCoversAll()
    ensures forall f: Field :: f in FieldOrder
    ensures forall i, j :: 0 <= i < j < |FieldOrder| ==> FieldOrder[i] != FieldOrder[j]
  {
    forall f: Field ensures f in FieldOrder {
      match f
      case InvoiceNumber => assert FieldOrder[0] == f;
      case InvoiceDate => assert FieldOrder[1] == f;
      case DueDate => assert FieldOrder[2] == f;
      case VendorName => assert FieldOrder[3] == f;
      case TotalAmount => assert FieldOrder[4] == f;
    }
  }

  /** The group of the first matcher of the list that matches `text`. */
  function FirstMatch(matchers: seq<Matcher>, text: string): (r: Option<string>)
    decreases |matchers|
  {
    if matchers == [] then None
    else if matchers[0](text).Some? then matchers[0](text)
    else FirstMatch(matchers[1..], text)
  }

  /** Some pattern matches exactly when one of the list does. */
  lemma {:induction false} FirstMatchNoneIff(matchers: seq<Matcher>, text: string)
    ensures FirstMatch(matchers, text).None? <==> forall k :: 0 <= k < |matchers| ==> matchers[k](text).None?
    decreases |matchers|
  {
    if matchers != [] {
      FirstMatchNoneIff(matchers[1..], text);
      assert forall k :: 1 <= k < |matchers| ==> matchers[1..][k - 1] == matchers[k];
    }
  }

  /** A value found is that of the earliest pattern that matches. */
  lemma {:induction false} FirstMatchIsEarliest(matchers: seq<Matcher>, text: string)
    requires FirstMatch(matchers, text).Some?
    ensures exists k :: && 0 <= k < |matchers|
                        && matchers[k](text) == FirstMatch(matchers, text)
                        && forall m :: 0 <= m < k ==> matchers[m](text).None?
    decreases |matchers|
  {
    if matchers[0](text).None? {
      var rest := matchers[1..];
      FirstMatchIsEarliest(rest, text);
      var k :| 0 <= k < |rest| && rest[k](text) == FirstMatch(rest, text) &&
               forall m :: 0 <= m < k ==> rest[m](text).None?;
      assert matchers[k + 1] == rest[k];
      assert forall m :: 1 <= m < k + 1 ==> matchers[m] == rest[m - 1];
    }
  }

  /** What the loop stores for a group found: stripped, and for the total amount passed through
      `clean_amount` (process_invoice.py:252-255). */
  function FieldValue(digit: char -> bool, field: Field, group: string): (r: Option<string>)
    ensures field != TotalAmount ==> r == Some(Strip(group))
    ensures field == TotalAmount ==> r == CleanAmount(digit, Strip(group))
  {
    var value := Strip(group);
    if field == TotalAmount then CleanAmount(digit, value) else Some(value)
  }

  /** Stripping the group before `clean_amount` changes nothing: the total amount stored is what
      the class `[\d,.]` keeps of the whole group, or None when that is empty. */
  lemma TotalAmountIsSelection(digit: char -> bool, group: string)
    requires DigitsWellFormed(digit)
    ensures var kept := Select(group, AmountCharTest(digit));
            FieldValue(digit, TotalAmount, group) == if kept == [] then None else Some(kept)
  {
    SelectStrip(group, AmountCharTest(digit));
    CleanAmountIsSelection(digit, Strip(group));
  }

  /** The value the pattern loop gives `field`: that of its first matching pattern, None when
      none matches. */
  function HeaderValue(digit: char -> bool, patterns: Field -> seq<Matcher>, text: string, field: Field)
    : Option<string>
  {
    match FirstMatch(patterns(field), text)
    case None => None
    case Some(group) => FieldValue(digit, field, group)
  }

  /** The search over the patterns of one field (process_invoice.py:250-258), stopping at the
      first match. */
  method SearchField(digit: char -> bool, field: Field, matchers: seq<Matcher>, text: string)
    returns (value: Option<string>)
    ensures FirstMatch(matchers, text).None? ==> value == None
    ensures FirstMatch(matchers, text).Some? ==> value == FieldValue(digit, field, FirstMatch(matchers, text).value)
  {
    value := None;
    var j := 0;
    while j < |matchers|
      invariant 0 <= j <= |matchers|
      invariant FirstMatch(matchers[j..], text) == FirstMatch(matchers, text)
    {
      var found := matchers[j](text);
      if found.Some? {
        value := FieldValue(digit, field, found.value);
        return;
      }
      assert matchers[j..][1..] == matchers[j + 1..];
      j := j + 1;
    }
  }

  /** The first `i` keys of the loop hold their values in `want` and the others are still None. */
  predicate FilledUpTo(output: HeaderFields, want: Field -> Option<string>, i: nat) {
    && (forall k :: 0 <= k < i && k < |FieldOrder| ==> Get(output, FieldOrder[k]) == want(FieldOrder[k]))
    && (forall k :: i <= k < |FieldOrder| ==> Get(output, FieldOrder[k]) == None)
  }

  lemma FilledStep(output: HeaderFields, want: Field -> Option<string>, i: nat)
    requires i < |FieldOrder| && FilledUpTo(output, want, i)
    ensures FilledUpTo(Set(output, FieldOrder[i], want(FieldOrder[i])), want, i + 1)
  {
    FieldOrderCoversAll();
  }

  lemma FilledAll(output: HeaderFields, want: Field -> Option<string>)
    requires FilledUpTo(output, want, |FieldOrder|)
    ensures forall f: Field :: Get(output, f) == want(f)
  {
    FieldOrderCoversAll();
    forall f: Field ensures Get(output, f) == want(f) {
      assert f in FieldOrder;
      var k :| 0 <= k < |FieldOrder| && FieldOrder[k] == f;
    }
  }

  /** The value the pattern loop gives each key. */
  function HeaderValues(digit: char -> bool, patterns: Field -> seq<Matcher>, text: string): Field -> Option<string> {
    f => HeaderValue(digit, patterns, text, f)
  }

  /** The pattern loop of process_invoice.py:248-258: every key starts as None and is given the
      value of its first matching pattern. */
  method ExtractHeader(digit: char -> bool, patterns: Field -> seq<Matcher>, text: string)
    returns (output: HeaderFields)
    ensures forall f: Field :: Get(output, f) == HeaderValue(digit, patterns, text, f)
  {
    ghost var want := HeaderValues(digit, patterns, text);
    output := HeaderFields(None, None, None, None, None);
    for i := 0 to |FieldOrder|
      invariant FilledUpTo(output, want, i)
    {
      var field := FieldOrder[i];
      if Get(output, field) == None {
        var value := SearchField(digit, field, patterns(field), text);
        assert value == want(field);
        FilledStep(output, want, i);
        output := Set(output, field, value);
      }
    }
    FilledAll(output, want);
  }

  /** The date fallback of process_invoice.py:260-265: when a date field is unset (None or
      empty), the first date-shaped substring fills the invoice date and the second the due
      date, each only if that field is still unset. `dates` are the substrings `re.findall`
      returns, in text order. */
  function DateFallback(h: HeaderFields, dates: seq<string>): (r: HeaderFields)
    ensures r.invoiceNumber == h.invoiceNumber && r.vendorName == h.vendorName && r.totalAmount == h.totalAmount
    ensures Truthy(h.invoiceDate) ==> r.invoiceDate == h.invoiceDate
    ensures Truthy(h.dueDate) ==> r.dueDate == h.dueDate
    ensures !Truthy(h.invoiceDate) ==> r.invoiceDate == if |dates| >= 1 then Some(dates[0]) else h.invoiceDate
    ensures !Truthy(h.dueDate) ==> r.dueDate == if |dates| >= 2 then Some(dates[1]) else h.dueDate
  {
    if !Truthy(h.invoiceDate) || !Truthy(h.dueDate) then
      var h1 := if |dates| >= 1 && !Truthy(h.invoiceDate) then h.(invoiceDate := Some(dates[0])) else h;
      if |dates| >= 2 && !Truthy(h1.dueDate) then h1.(dueDate := Some(dates[1])) else h1
    else h
  }

  /** The result record of `parse_japanese_invoice`: the five header keys and the line items. */
  datatype Invoice = Invoice(header: HeaderFields, lineItems: seq<LineItem>)

  /** `' '.join(item['text'] for item in extracted_text)` (process_invoice.py:237). */
  function AllText(tokens: seq<Token>): string {
    JoinSpace(seq(|tokens|, i requires 0 <= i < |tokens| => tokens[i].text))
  }

  /** Every token's text occurs in the joined text that the header patterns search. */
  lemma AllTextHoldsEveryToken(tokens: seq<Token>, i: nat)
    requires i < |tokens|
    ensures Contains(AllText(tokens), tokens[i].text)
  {
    JoinSpaceContains(seq(|tokens|, j requires 0 <= j < |tokens| => tokens[j].text), i);
  }

  /** The header after the pattern loop, before the date fallback. */
  function SearchedHeader(digit: char -> bool, patterns: Field -> seq<Matcher>, text: string): HeaderFields {
    HeaderFields(
      HeaderValue(digit, patterns, text, InvoiceNumber),
      HeaderValue(digit, patterns, text, InvoiceDate),
      HeaderValue(digit, patterns, text, DueDate),
      HeaderValue(digit, patterns, text, VendorName),
      HeaderValue(digit, patterns, text, TotalAmount))
  }

  /** The header of the result for the tokens, given the pattern table and the date search
      `findDates` (`re.findall` of the date pattern of line 261). */
  function InvoiceHeader(digit: char -> bool, patterns: Field -> seq<Matcher>, findDates: string -> seq<string>,
                         tokens: seq<Token>): HeaderFields
  {
    var text := AllText(tokens);
    DateFallback(SearchedHeader(digit, patterns, text), findDates(text))
  }

  /** What `parse_japanese_invoice` returns for the tokens. */
  function InvoiceOf(digit: char -> bool, classes: DateClasses, patterns: Field -> seq<Matcher>,
                     findDates: string -> seq<string>, tokens: seq<Token>): Invoice
  {
    Invoice(InvoiceHeader(digit, patterns, findDates, tokens), LineItemsOf(digit, classes, tokens))
  }

  /** The header part of `parse_japanese_invoice` (process_invoice.py:230-265): the pattern loop
      over the joined text, then the date fallback. */
  method ParseHeader(digit: char -> bool, patterns: Field -> seq<Matcher>, findDates: string -> seq<string>,
                     tokens: seq<Token>) returns (output: HeaderFields)
    ensures output == InvoiceHeader(digit, patterns, findDates, tokens)
  {
    var text := AllText(tokens);
    output := ExtractHeader(digit, patterns, text);
    HeaderEquality(output, SearchedHeader(digit, patterns, text));
    if !Truthy(output.invoiceDate) || !Truthy(output.dueDate) {
      var dates := findDates(text);
      if |dates| >= 1 && !Truthy(output.invoiceDate) {
        output := output.(invoiceDate := Some(dates[0]));
      }
      if |dates| >= 2 && !Truthy(output.dueDate) {
        output := output.(dueDate := Some(dates[1]));
      }
    }
  }

  /** `parse_japanese_invoice` (process_invoice.py:228-273): the header, then the line items,
      a failure of which leaves the list empty. */
  method ParseInvoice(digit: char -> bool, classes: DateClasses, patterns: Field -> seq<Matcher>,
                      findDates: string -> seq<string>, tokens: seq<Token>) returns (invoice: Invoice)
    ensures invoice == InvoiceOf(digit, classes, patterns, findDates, tokens)
  {
    var output := ParseHeader(digit, patterns, findDates, tokens);
    var items := ParseLineItems(digit, classes, tokens);
    var lineItems := match items case None => [] case Some(found) => found;
    invoice := Invoice(output, lineItems);
  }

  /** A field other than the two dates holds the value of the earliest of its patterns that
      matches, and None exactly when none of them matches. */
  lemma HeaderFromEarliestPattern(digit: char -> bool, patterns: Field -> seq<Matcher>,
                                  findDates: string -> seq<string>, tokens: seq<Token>, f: Field)
    requires f != InvoiceDate && f != DueDate
    ensures var text := AllText(tokens);
            var v := Get(InvoiceHeader(digit, patterns, findDates, tokens), f);
            && ((forall k :: 0 <= k < |patterns(f)| ==> patterns(f)[k](text).None?) ==> v == None)
            && (forall k :: (0 <= k < |patterns(f)| && patterns(f)[k](text).Some? &&
                             forall m :: 0 <= m < k ==> patterns(f)[m](text).None?) ==>
                  v == FieldValue(digit, f, patterns(f)[k](text).value))
  {
    var text := AllText(tokens);
    assert Get(InvoiceHeader(digit, patterns, findDates, tokens), f) == HeaderValue(digit, patterns, text, f);
    EarliestPatternWins(digit, patterns(f), text, f);
  }

  /** The value of a field is that of the earliest of its patterns that matches, and None when
      none matches. */
  lemma EarliestPatternWins(digit: char -> bool, matchers: seq<Matcher>, text: string, f: Field)
    ensures (forall k :: 0 <= k < |matchers| ==> matchers[k](text).None?) ==> FirstMatch(matchers, text) == None
    ensures forall k :: (0 <= k < |matchers| && matchers[k](text).Some? &&
                         forall m :: 0 <= m < k ==> matchers[m](text).None?) ==>
              FirstMatch(matchers, text) == matchers[k](text)
  {
    FirstMatchNoneIff(matchers, text);
    if FirstMatch(matchers, text).Some? {
      FirstMatchIsEarliest(matchers, text);
    }
  }

  /** A total amount found is non-empty and made only of digits, commas and points. */
  lemma TotalAmountIsClean(digit: char -> bool, patterns: Field -> seq<Matcher>,
                           findDates: string -> seq<string>, tokens: seq<Token>)
    ensures var v := InvoiceHeader(digit, patterns, findDates, tokens).totalAmount;
            v.Some? ==> v.value != [] && forall i :: 0 <= i < |v.value| ==> IsAmountChar(digit, v.value[i])
  {
  }

  /** When any row of the table raises, the result holds no line items, and the header is
      returned all the same. */
  lemma LineItemFailureGivesNoItems(digit: char -> bool, classes: DateClasses, patterns: Field -> seq<Matcher>,
                                    findDates: string -> seq<string>, tokens: seq<Token>)
    ensures var rows := TableRows(digit, classes, tokens);
            var invoice := InvoiceOf(digit, classes, patterns, findDates, tokens);
            && invoice.header == InvoiceHeader(digit, patterns, findDates, tokens)
            && ((exists j :: 0 <= j < |rows| && SortedRowOutcome(digit)(rows[j]) == IndexError) ==>
                  invoice.lineItems == [])
  {
    ItemsFromNoneIff(SortedRowOutcome(digit), TableRows(digit, classes, tokens));
  }
}
