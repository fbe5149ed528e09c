/** Turning rows of tokens into line items (process_invoice.py:153-224): each row, sorted left
    to right, is split into number tokens, a unit word and description words; the cleaned numbers
    are filled to unit price, quantity and amount by their count; a missing field is derived
    from the other two; and the row yields an item when it has a description and a value. */
module LineItems {
  import opened Basics
  import opened Numbers
  import opened Amount
  import opened Tokens
  import opened TokenFilter
  import opened Sorting
  import opened RowClustering

  datatype LineItem = LineItem(
    description: string,
    unitPrice: Option<string>,
    quantity: Option<string>,
    unit: Option<string>,
    amount: Option<string>)

  /** The unit words of process_invoice.py:164. */
  const UnitWords: seq<string> := ["パック", "kg", "g", "個", "本", "枚", "セット", "袋", "円", "式", "件", "個口"]

  predicate IsDigitGlyphChar(c: char) {
    IsAsciiDigit(c) || IsSpace(c) || c == '#' || c == '¥' || c == '￥'
  }

  /** The pattern `^[0-9\s#¥￥]+$`: text made only of digits, whitespace and currency marks. */
  predicate IsDigitGlyphRun(s: string) {
    s != [] && forall i :: 0 <= i < |s| ==> IsDigitGlyphChar(s[i])
  }

  /** What a stripped text contributes to its row. */
  datatype Role = Number | UnitWord | Description | Ignored

  function RoleOf(text: string): Role {
    if IsNumberToken(text) then Number
    else if text in UnitWords then UnitWord
    else if !IsDigitGlyphRun(text) && text != "INVOICE" && text != "TEL" then Description
    else Ignored
  }

  datatype RowParts = RowParts(description: seq<string>, numbers: seq<string>, unit: Option<string>)

  /** The classification loop of process_invoice.py:160-169 over a row's stripped texts, each
      sorted by `role` (the parser's is `RoleOf`). */
  function Classify(texts: seq<string>, role: string -> Role): (r: RowParts)
    ensures forall i :: 0 <= i < |r.numbers| ==> role(r.numbers[i]) == Number
    ensures forall i :: 0 <= i < |r.description| ==> role(r.description[i]) == Description
    ensures IsSubseq(r.numbers, texts) && IsSubseq(r.description, texts)
    ensures r.unit.Some? ==> role(r.unit.value) == UnitWord
    decreases |texts|
  {
    if texts == [] then RowParts([], [], None)
    else
      var init, text := texts[..|texts| - 1], texts[|texts| - 1];
      var p := Classify(init, role);
      assert texts == init + [text];
      IsSubseqExtend(p.numbers, init, text);
      IsSubseqExtend(p.description, init, text);
      match role(text)
      case Number => p.(numbers := p.numbers + [text])
      case UnitWord => p.(unit := Some(text))
      case Description => p.(description := p.description + [text])
      case Ignored => p
  }

  /** The test "`role` gives `want`" as a function value. */
  function RoleIs(role: string -> Role, want: Role): string -> bool {
    t => role(t) == want
  }

  /** The numbers are exactly the row's number texts and the description exactly its
      description texts, each in row order. */
  lemma {:induction false} ClassifySelects(texts: seq<string>, role: string -> Role)
    ensures Classify(texts, role).numbers == Select(texts, RoleIs(role, Number))
    ensures Classify(texts, role).description == Select(texts, RoleIs(role, Description))
    decreases |texts|
  {
    if texts != [] {
      var n := |texts| - 1;
      var init := texts[..n];
      ClassifySelects(init, role);
      assert texts == init + [texts[n]];
      SelectConcat(init, [texts[n]], RoleIs(role, Number));
      SelectConcat(init, [texts[n]], RoleIs(role, Description));
    }
  }

  /** The unit is the last unit word of the row, and there is none when the row has none. */
  lemma {:induction false} ClassifyUnit(texts: seq<string>, role: string -> Role)
    ensures Classify(texts, role).unit.None? <==> forall i :: 0 <= i < |texts| ==> role(texts[i]) != UnitWord
    ensures Classify(texts, role).unit.Some? ==>
              exists i :: 0 <= i < |texts| && texts[i] == Classify(texts, role).unit.value &&
                          forall j :: i < j < |texts| ==> role(texts[j]) != UnitWord
    decreases |texts|
  {
    if texts != [] {
      var n := |texts| - 1;
      var init := texts[..n];
      ClassifyUnit(init, role);
      ClassifyUnitStep(texts, role);
      assert forall i :: 0 <= i < n ==> init[i] == texts[i];
      var u := Classify(texts, role).unit;
      if role(texts[n]) != UnitWord && u.Some? {
        var i :| 0 <= i < n && init[i] == u.value && forall j :: i < j < n ==> role(init[j]) != UnitWord;
        assert texts[i] == u.value;
      }
    }
  }

  lemma ClassifyUnitStep(texts: seq<string>, role: string -> Role)
    requires texts != []
    ensures var n := |texts| - 1;
            Classify(texts, role).unit ==
            if role(texts[n]) == UnitWord then Some(texts[n]) else Classify(texts[..n], role).unit
  {
  }

  /** The stripped text of each token of a row. */
  function StrippedTexts(row: seq<Token>): (r: seq<string>)
    ensures |r| == |row|
  {
    seq(|row|, i requires 0 <= i < |row| => Strip(row[i].text))
  }

  /** `clean_amount` as a function value. */
  function Cleaner(digit: char -> bool): string -> Option<string> {
    s => CleanAmount(digit, s)
  }

  /** `[clean(n) for n in numbers if clean(n)]`; the parser's `clean` is `Cleaner(digit)`. */
  function CleanedNumbers(clean: string -> Option<string>, numbers: seq<string>): (r: seq<string>)
    ensures |r| <= |numbers|
    decreases |numbers|
  {
    if numbers == [] then []
    else
      var prev := CleanedNumbers(clean, numbers[..|numbers| - 1]);
      match clean(numbers[|numbers| - 1])
      case Some(c) => prev + [c]
      case None => prev
  }

  /** The values of the cleaned numbers that `float` accepts, in order; the others are skipped. */
  function NumericValues(cleaned: seq<string>): (r: seq<real>)
    ensures |r| <= |cleaned|
    ensures forall i :: 0 <= i < |r| ==> r[i] >= 0.0
    decreases |cleaned|
  {
    if cleaned == [] then []
    else
      var prev := NumericValues(cleaned[..|cleaned| - 1]);
      match ParseFloat(RemoveCommas(cleaned[|cleaned| - 1]))
      case Some(v) => prev + [v]
      case None => prev
  }

  /** Python's truth value of an optional string field. */
  predicate Truthy(f: Option<string>) {
    f.Some? && f.value != []
  }

  /** The column assignment of process_invoice.py:194-205. None stands for the IndexError raised
      by `numeric_values[1]` when two numbers were cleaned and only one of them parses. */
  function AssignNumbers(description: string, unit: Option<string>, cleaned: seq<string>, values: seq<real>)
    : (r: Option<LineItem>)
    requires |values| <= |cleaned|
    ensures r.None? <==> |cleaned| == 2 && |values| == 1
    ensures r.Some? ==> r.value.description == description && r.value.unit == unit
    ensures r.Some? ==> (r.value.amount.Some? <==> cleaned != [])
    ensures r.Some? && r.value.amount.Some? ==> r.value.amount.value == cleaned[if |cleaned| >= 3 then 2 else |cleaned| - 1]
    ensures r.Some? && r.value.quantity.Some? ==> r.value.quantity.value in cleaned
    ensures r.Some? && r.value.unitPrice.Some? ==> r.value.unitPrice.value in cleaned
    ensures |cleaned| >= 3 ==>
              r == Some(LineItem(description, Some(cleaned[0]), Some(cleaned[1]), unit, Some(cleaned[2])))
    ensures |cleaned| == 2 && r.Some? ==>
              if |values| == 2 && values[0] < values[1] && values[0] < 1000.0
              then r.value.quantity == Some(cleaned[0]) && r.value.unitPrice.None?
              else r.value.unitPrice == Some(cleaned[0]) && r.value.quantity.None?
    ensures |cleaned| <= 1 && r.Some? ==> r.value.quantity.None? && r.value.unitPrice.None?
  {
    if |cleaned| >= 3 then
      Some(LineItem(description, Some(cleaned[0]), Some(cleaned[1]), unit, Some(cleaned[2])))
    else if |cleaned| == 2 then
      if values == [] then
        Some(LineItem(description, Some(cleaned[0]), None, unit, Some(cleaned[1])))
      else if |values| == 1 then
        None
      else if values[0] < values[1] && values[0] < 1000.0 then
        Some(LineItem(description, None, Some(cleaned[0]), unit, Some(cleaned[1])))
      else
        Some(LineItem(description, Some(cleaned[0]), None, unit, Some(cleaned[1])))
    else if |cleaned| == 1 then
      Some(LineItem(description, None, None, unit, Some(cleaned[0])))
    else
      Some(LineItem(description, None, None, unit, None))
  }

  /** A field as the reconciliation reads it: absent (falsy), not a number (ValueError), or a value. */
  datatype Parsed = Absent | Bad | Value(v: real)

  function ParseField(f: Option<string>): (r: Parsed)
    ensures r.Absent? <==> !Truthy(f)
    ensures r.Value? ==> r.v >= 0.0 && ParseFloat(RemoveCommas(f.value)) == Some(r.v)
  {
    if !Truthy(f) then Absent
    else match ParseFloat(RemoveCommas(f.value))
      case Some(v) => Value(v)
      case None => Bad
  }

  predicate NonZero(p: Parsed) {
    p.Value? && p.v != 0.0
  }

  /** `f"{x * y:,.0f}"`, the derived amount. */
  function DerivedProduct(x: real, y: real): string
    requires x >= 0.0 && y >= 0.0
  {
    assert x * y >= 0.0;
    FormatWhole(x * y)
  }

  /** `x / y` on exact reals. */
  function Quotient(x: real, y: real): (z: real)
    requires x >= 0.0 && y > 0.0
    ensures z >= 0.0
  {
    x / y
  }

  /** The derived unit price or quantity: `x / y`, grouped when whole and with two decimals otherwise. */
  function DerivedQuotient(x: real, y: real): string
    requires x >= 0.0 && y > 0.0
  {
    FormatQuotient(Quotient(x, y))
  }

  lemma DerivedProductRoundTrip(x: real, y: real)
    requires x >= 0.0 && y >= 0.0
    ensures ParseFloat(RemoveCommas(DerivedProduct(x, y))) == Some(RoundHalfEven(x * y) as real)
  {
    FormatWholeRoundTrip(x * y);
  }

  lemma DerivedQuotientRoundTrip(x: real, y: real)
    requires x >= 0.0 && y > 0.0
    ensures ParseFloat(RemoveCommas(DerivedQuotient(x, y))) == Some(QuotientReadBack(Quotient(x, y)))
  {
    FormatQuotientRoundTrip(Quotient(x, y));
  }

  /** The reconciliation of process_invoice.py:207-221: a missing amount is quantity times unit
      price, a missing unit price is amount over quantity, a missing quantity is amount over unit
      price. A field that does not parse abandons the whole step. The result keeps every field
      that was set and fills at most one that was not. */
  function Reconcile(li: LineItem): (r: LineItem)
    ensures r.description == li.description && r.unit == li.unit
    ensures || r == li
            || (!Truthy(li.amount) && r == li.(amount := r.amount))
            || (!Truthy(li.unitPrice) && r == li.(unitPrice := r.unitPrice))
            || (!Truthy(li.quantity) && r == li.(quantity := r.quantity))
    ensures (ParseField(li.quantity).Bad? || ParseField(li.unitPrice).Bad? || ParseField(li.amount).Bad?) ==> r == li
    ensures r.amount != li.amount ==>
              NonZero(ParseField(li.quantity)) && NonZero(ParseField(li.unitPrice))
    ensures r.unitPrice != li.unitPrice ==>
              NonZero(ParseField(li.quantity)) && NonZero(ParseField(li.amount)) && ParseField(li.quantity).v > 0.0
    ensures r.quantity != li.quantity ==>
              NonZero(ParseField(li.unitPrice)) && NonZero(ParseField(li.amount)) && ParseField(li.unitPrice).v > 0.0
  {
    var q, u, a := ParseField(li.quantity), ParseField(li.unitPrice), ParseField(li.amount);
    if q.Bad? || u.Bad? || a.Bad? then li
    else if NonZero(q) && NonZero(u) && a.Absent? then
      li.(amount := Some(DerivedProduct(q.v, u.v)))
    else if NonZero(q) && NonZero(a) && u.Absent? && q.v > 0.0 then
      li.(unitPrice := Some(DerivedQuotient(a.v, q.v)))
    else if NonZero(u) && NonZero(a) && q.Absent? && u.v > 0.0 then
      li.(quantity := Some(DerivedQuotient(a.v, u.v)))
    else li
  }

  /** A line item as the parser emits it: a description and at least one set numeric field. */
  predicate Emittable(li: LineItem) {
    li.description != [] && (Truthy(li.amount) || Truthy(li.unitPrice) || Truthy(li.quantity))
  }

  /** What one row gives: nothing, an item, or the IndexError of process_invoice.py:198. */
  datatype RowOutcome = NoItem | Item(item: LineItem) | IndexError

  /** The item a row yields from its classified texts, as process_invoice.py:171-224 computes
      it. */
  function PartsOutcome(digit: char -> bool, parts: RowParts): (r: RowOutcome)
    ensures r.Item? ==> Emittable(r.item)
  {
    var description := Strip(JoinSpace(parts.description));
    if description == [] && parts.numbers == [] then NoItem
    else if description == [] && |parts.numbers| < 2 then NoItem
    else
      var cleaned := CleanedNumbers(Cleaner(digit), parts.numbers);
      FilledOutcome(AssignNumbers(description, parts.unit, cleaned, NumericValues(cleaned)))
  }

  /** The end of a row's processing once its columns are assigned: the IndexError, or the
      reconciled item when it is worth emitting. */
  function FilledOutcome(filled: Option<LineItem>): (r: RowOutcome)
    ensures r == IndexError <==> filled.None?
    ensures r.Item? ==> Emittable(r.item)
  {
    if filled.None? then IndexError
    else
      var li := Reconcile(filled.value);
      if Emittable(li) then Item(li) else NoItem
  }

  /** The item a row yields, as process_invoice.py:156-224 computes it for a row already sorted
      left to right. */
  function RowOutcomeOf(digit: char -> bool, row: seq<Token>): (r: RowOutcome)
    ensures r.Item? ==> Emittable(r.item)
  {
    PartsOutcome(digit, Classify(StrippedTexts(row), RoleOf))
  }

  /** The outcome of a row of the table: sorted by its left edge, then assembled. */
  function SortedRowOutcome(digit: char -> bool): seq<Token> -> RowOutcome {
    row => RowOutcomeOf(digit, SortedBy(row, Left))
  }

  /** The items of the rows in order, given the outcome of each row; None when a row raises
      the IndexError, which abandons every item. */
  function ItemsFrom(outcome: seq<Token> -> RowOutcome, rows: seq<seq<Token>>): (r: Option<seq<LineItem>>)
    ensures r.Some? ==> |r.value| <= |rows|
    decreases |rows|
  {
    if rows == [] then Some([])
    else
      match ItemsFrom(outcome, rows[..|rows| - 1])
      case None => None
      case Some(items) =>
        match outcome(rows[|rows| - 1])
        case IndexError => None
        case Item(li) => Some(items + [li])
        case NoItem => Some(items)
  }

  /** The rows of the table: the relevant tokens sorted by their top edge and grouped. With
      `AsWritten` date classes this is the program as it runs. */
  function TableRows(digit: char -> bool, classes: DateClasses, tokens: seq<Token>): seq<seq<Token>> {
    Clustered(SortedBy(Relevant(digit, classes, tokens), Top))
  }

  /** `parse_line_items_logic` (process_invoice.py:102-226): None when it raises. */
  function LineItemsResult(digit: char -> bool, classes: DateClasses, tokens: seq<Token>): Option<seq<LineItem>> {
    ItemsFrom(SortedRowOutcome(digit), TableRows(digit, classes, tokens))
  }

  /** The line items stored in the result: the exception handler of process_invoice.py:267-271
      replaces a failure by no items. */
  function LineItemsOf(digit: char -> bool, classes: DateClasses, tokens: seq<Token>): seq<LineItem> {
    match LineItemsResult(digit, classes, tokens)
    case None => []
    case Some(items) => items
  }

  /** Numbers that `clean` leaves as they are come through the cleaning unchanged and all kept. */
  lemma {:induction false} CleanedNumbersFixed(clean: string -> Option<string>, numbers: seq<string>)
    requires forall i :: 0 <= i < |numbers| ==> clean(numbers[i]) == Some(numbers[i])
    ensures CleanedNumbers(clean, numbers) == numbers
    decreases |numbers|
  {
    if numbers != [] {
      var n := |numbers| - 1;
      var init, s := numbers[..n], numbers[n];
      assert forall i :: 0 <= i < n ==> init[i] == numbers[i];
      CleanedNumbersFixed(clean, init);
      assert numbers == init + [s];
    }
  }

  /** Cleaning changes no number token: every number of a row survives `clean_amount` as it is. */
  lemma CleanedNumberTokens(digit: char -> bool, numbers: seq<string>)
    requires DigitsWellFormed(digit)
    requires forall i :: 0 <= i < |numbers| ==> IsNumberToken(numbers[i])
    ensures CleanedNumbers(Cleaner(digit), numbers) == numbers
  {
    forall i | 0 <= i < |numbers| ensures Cleaner(digit)(numbers[i]) == Some(numbers[i]) {
      NumberTokenCleansToItself(digit, numbers[i]);
    }
    CleanedNumbersFixed(Cleaner(digit), numbers);
  }

  predicate CommasOnly(s: string) {
    forall i :: 0 <= i < |s| ==> s[i] == ','
  }

  /** How many of the texts consist of commas alone. */
  function CommasOnlyCount(texts: seq<string>): (n: nat)
    ensures n <= |texts|
    decreases |texts|
  {
    if texts == [] then 0
    else CommasOnlyCount(texts[..|texts| - 1]) + (if CommasOnly(texts[|texts| - 1]) then 1 else 0)
  }

  /** Of a row's number tokens, exactly those made of commas alone fail to parse. */
  lemma {:induction false} NumericValuesOfNumberTokens(numbers: seq<string>)
    requires forall i :: 0 <= i < |numbers| ==> IsNumberToken(numbers[i])
    ensures |NumericValues(numbers)| == |numbers| - CommasOnlyCount(numbers)
    decreases |numbers|
  {
    if numbers != [] {
      var n := |numbers| - 1;
      var init, s := numbers[..n], numbers[n];
      assert forall i :: 0 <= i < |init| ==> init[i] == numbers[i];
      NumericValuesOfNumberTokens(init);
      NumberTokenParseFailsIff(s);
      assert CommasOnlyCount(numbers) == CommasOnlyCount(init) + (if CommasOnly(s) then 1 else 0);
      if CommasOnly(s) {
        assert NumericValues(numbers) == NumericValues(init);
      } else {
        assert |NumericValues(numbers)| == |NumericValues(init)| + 1;
      }
    }
  }

  /** A row's parts raise the IndexError exactly when they hold two number tokens and one of
      them is commas alone. */
  lemma PartsIndexErrorIff(digit: char -> bool, parts: RowParts)
    requires DigitsWellFormed(digit)
    requires forall i :: 0 <= i < |parts.numbers| ==> IsNumberToken(parts.numbers[i])
    ensures PartsOutcome(digit, parts) == IndexError <==>
            |parts.numbers| == 2 && CommasOnlyCount(parts.numbers) == 1
  {
    CleanedNumberTokens(digit, parts.numbers);
    NumericValuesOfNumberTokens(parts.numbers);
  }

  /** The number texts of a row. */
  function RowNumbers(row: seq<Token>): seq<string> {
    Classify(StrippedTexts(row), RoleOf).numbers
  }

  lemma NumberRoleIsNumberToken(text: string)
    requires RoleOf(text) == Number
    ensures IsNumberToken(text)
  {
  }

  /** A row raises the IndexError exactly when it has two number tokens and one of them is
      commas alone. */
  lemma RowIndexErrorIff(digit: char -> bool, row: seq<Token>)
    requires DigitsWellFormed(digit)
    ensures RowOutcomeOf(digit, row) == IndexError <==>
            |RowNumbers(row)| == 2 && CommasOnlyCount(RowNumbers(row)) == 1
  {
    var numbers := RowNumbers(row);
    forall i | 0 <= i < |numbers| ensures IsNumberToken(numbers[i]) {
      NumberRoleIsNumberToken(numbers[i]);
    }
    PartsIndexErrorIff(digit, Classify(StrippedTexts(row), RoleOf));
  }

  /** Each unit word of process_invoice.py:164 is taken as the unit: none of them passes the
      number pattern, which is tested first. */
  lemma UnitWordsAreUnits()
    ensures forall k :: 0 <= k < |UnitWords| ==> RoleOf(UnitWords[k]) == UnitWord
  {
    forall k | 0 <= k < |UnitWords| ensures !IsNumberToken(UnitWords[k]) {
      if IsNumberToken(UnitWords[k]) {
        NumberTokenChars(UnitWords[k]);
      }
    }
  }

  lemma AppleIsDescription()
    ensures RoleOf("りんご") == Description
  {
    assert IndexOf("りんご", '.') == 3;
    assert !IsNumberToken("りんご");
    assert "りんご" !in UnitWords;
    assert !IsDigitGlyphRun("りんご");
  }

  lemma StrayCommaIsNumber()
    ensures RoleOf(",") == Number
  {
    assert IndexOf(",", '.') == 1;
  }

  lemma HundredIsNumber()
    ensures RoleOf("100") == Number
  {
    assert IndexOf("100", '.') == 3;
  }

  lemma ClassifyDescriptionThenNumbers(texts: seq<string>, role: string -> Role)
    requires |texts| == 3 && role(texts[0]) == Description
    requires role(texts[1]) == Number && role(texts[2]) == Number
    ensures Classify(texts, role) == RowParts([texts[0]], texts[1..], None)
  {
    assert texts[..1][..0] == [];
    assert Classify(texts[..1], role) == RowParts([texts[0]], [], None);
    assert texts[..2][..1] == texts[..1];
    assert Classify(texts[..2], role) == RowParts([texts[0]], [texts[1]], None);
    assert texts[..3][..2] == texts[..2] && texts[..3] == texts;
    assert texts[1..] == [texts[1], texts[2]];
  }

  lemma StrayCommaParts()
    ensures Classify(["りんご", ",", "100"], RoleOf) == RowParts(["りんご"], [",", "100"], None)
  {
    var texts := ["りんご", ",", "100"];
    AppleIsDescription();
    StrayCommaIsNumber();
    HundredIsNumber();
    ClassifyDescriptionThenNumbers(texts, RoleOf);
    assert texts[1..] == [",", "100"];
  }

  lemma StrayCommaCount()
    ensures CommasOnlyCount([",", "100"]) == 1
  {
    var numbers := [",", "100"];
    assert CommasOnly(",") && "100"[0] == '1';
    assert numbers[..1] == [","] && [","][..0] == [];
  }

  lemma StrayCommaPartsRaise(digit: char -> bool)
    requires DigitsWellFormed(digit)
    ensures PartsOutcome(digit, RowParts(["りんご"], [",", "100"], None)) == IndexError
  {
    StrayCommaCount();
    StrayCommaIsNumber();
    HundredIsNumber();
    PartsIndexErrorIff(digit, RowParts(["りんご"], [",", "100"], None));
  }

  /** A stray comma next to one number in a described row raises the IndexError. */
  lemma StrayCommaRaises(digit: char -> bool, row: seq<Token>)
    requires DigitsWellFormed(digit)
    requires StrippedTexts(row) == ["りんご", ",", "100"]
    ensures RowOutcomeOf(digit, row) == IndexError
  {
    StrayCommaParts();
    StrayCommaPartsRaise(digit);
  }

  /** When every item a row can yield is emittable, so is every item of the rows. */
  lemma ItemsFromEmittable(outcome: seq<Token> -> RowOutcome, rows: seq<seq<Token>>)
    requires forall j :: 0 <= j < |rows| && outcome(rows[j]).Item? ==> Emittable(outcome(rows[j]).item)
    requires ItemsFrom(outcome, rows).Some?
    ensures forall li :: li in ItemsFrom(outcome, rows).value ==> Emittable(li)
  {
    var items := ItemsFrom(outcome, rows).value;
    ItemsFromItems(outcome, rows);
    forall li | li in items ensures Emittable(li) {
      var i :| 0 <= i < |items| && items[i] == li;
      var j :| 0 <= j < |rows| && outcome(rows[j]) == Item(li);
    }
  }

  /** The line items are lost exactly when some row raises. */
  lemma {:induction false} ItemsFromNoneIff(outcome: seq<Token> -> RowOutcome, rows: seq<seq<Token>>)
    ensures ItemsFrom(outcome, rows).None? <==> exists j :: 0 <= j < |rows| && outcome(rows[j]) == IndexError
    decreases |rows|
  {
    if rows != [] {
      var n := |rows| - 1;
      var init := rows[..n];
      ItemsFromNoneIff(outcome, init);
      assert forall j :: 0 <= j < n ==> init[j] == rows[j];
    }
  }

  /** Items keep the order of the rows: those of earlier rows come first. */
  lemma {:induction false} ItemsFromAppend(outcome: seq<Token> -> RowOutcome, a: seq<seq<Token>>, b: seq<seq<Token>>)
    ensures ItemsFrom(outcome, a + b) ==
            if ItemsFrom(outcome, a).Some? && ItemsFrom(outcome, b).Some?
            then Some(ItemsFrom(outcome, a).value + ItemsFrom(outcome, b).value)
            else None
    decreases |b|
  {
    if b == [] {
      assert a + b == a;
      assert ItemsFrom(outcome, b) == Some([]);
      if ItemsFrom(outcome, a).Some? {
        assert ItemsFrom(outcome, a).value + [] == ItemsFrom(outcome, a).value;
      }
    } else {
      var n := |b| - 1;
      ItemsFromAppend(outcome, a, b[..n]);
      assert (a + b)[..|a + b| - 1] == a + b[..n];
      assert (a + b)[|a + b| - 1] == b[n];
      if ItemsFrom(outcome, a).Some? && ItemsFrom(outcome, b[..n]).Some? {
        var x, y := ItemsFrom(outcome, a).value, ItemsFrom(outcome, b[..n]).value;
        match outcome(b[n])
        case Item(li) => assert x + (y + [li]) == x + y + [li];
        case NoItem =>
        case IndexError =>
      }
    }
  }

  /** Every item comes from a row, in order: the items are those of the rows that yield one. */
  lemma {:induction false} ItemsFromItems(outcome: seq<Token> -> RowOutcome, rows: seq<seq<Token>>)
    requires ItemsFrom(outcome, rows).Some?
    ensures forall i :: 0 <= i < |ItemsFrom(outcome, rows).value| ==>
              exists j :: 0 <= j < |rows| && outcome(rows[j]) == Item(ItemsFrom(outcome, rows).value[i])
    decreases |rows|
  {
    if rows != [] {
      var n := |rows| - 1;
      var init := rows[..n];
      ItemsFromItems(outcome, init);
      assert forall j :: 0 <= j < n ==> init[j] == rows[j];
    }
  }

  lemma SortedRowsEmittable(digit: char -> bool, rows: seq<seq<Token>>)
    requires ItemsFrom(SortedRowOutcome(digit), rows).Some?
    ensures forall li :: li in ItemsFrom(SortedRowOutcome(digit), rows).value ==> Emittable(li)
  {
    var outcome := SortedRowOutcome(digit);
    forall j | 0 <= j < |rows| && outcome(rows[j]).Item? ensures Emittable(outcome(rows[j]).item) {
      assert outcome(rows[j]) == RowOutcomeOf(digit, SortedBy(rows[j], Left));
    }
    ItemsFromEmittable(outcome, rows);
  }

  /** Every line item the parser returns has a description and a value. */
  lemma LineItemsEmittable(digit: char -> bool, classes: DateClasses, tokens: seq<Token>)
    ensures forall li :: li in LineItemsOf(digit, classes, tokens) ==> Emittable(li)
  {
    var rows := TableRows(digit, classes, tokens);
    if ItemsFrom(SortedRowOutcome(digit), rows).Some? {
      SortedRowsEmittable(digit, rows);
    }
  }

  /** A missing amount is derived from quantity and unit price and reads back as their product
      rounded to a whole number. */
  lemma ReconcileDerivesAmount(li: LineItem, q: real, u: real)
    requires ParseField(li.quantity) == Value(q) && ParseField(li.unitPrice) == Value(u)
    requires q != 0.0 && u != 0.0 && !Truthy(li.amount)
    ensures Reconcile(li) == li.(amount := Reconcile(li).amount)
    ensures Reconcile(li).amount.Some?
    ensures ParseFloat(RemoveCommas(Reconcile(li).amount.value)) == Some(RoundHalfEven(q * u) as real)
  {
    var d := DerivedProduct(q, u);
    assert Reconcile(li) == li.(amount := Some(d));
    DerivedProductRoundTrip(q, u);
  }

  /** A missing unit price is derived as amount over quantity and reads back as that quotient,
      exactly when it is whole and to the cent otherwise. */
  lemma ReconcileDerivesUnitPrice(li: LineItem, q: real, a: real)
    requires ParseField(li.quantity) == Value(q) && ParseField(li.amount) == Value(a)
    requires q > 0.0 && a != 0.0 && !Truthy(li.unitPrice)
    ensures Reconcile(li) == li.(unitPrice := Reconcile(li).unitPrice)
    ensures Reconcile(li).unitPrice.Some?
    ensures ParseFloat(RemoveCommas(Reconcile(li).unitPrice.value)) == Some(QuotientReadBack(Quotient(a, q)))
  {
    var d := DerivedQuotient(a, q);
    assert Reconcile(li) == li.(unitPrice := Some(d));
    DerivedQuotientRoundTrip(a, q);
  }

  /** A missing quantity is derived as amount over unit price and reads back as that quotient,
      exactly when it is whole and to the cent otherwise. */
  lemma ReconcileDerivesQuantity(li: LineItem, u: real, a: real)
    requires ParseField(li.unitPrice) == Value(u) && ParseField(li.amount) == Value(a)
    requires u > 0.0 && a != 0.0 && !Truthy(li.quantity)
    ensures Reconcile(li) == li.(quantity := Reconcile(li).quantity)
    ensures Reconcile(li).quantity.Some?
    ensures ParseFloat(RemoveCommas(Reconcile(li).quantity.value)) == Some(QuotientReadBack(Quotient(a, u)))
  {
    var d := DerivedQuotient(a, u);
    assert Reconcile(li) == li.(quantity := Some(d));
    DerivedQuotientRoundTrip(a, u);
  }

  /** No tokens, no line items. */
  lemma NoTokensNoItems(digit: char -> bool, classes: DateClasses)
    ensures LineItemsOf(digit, classes, []) == []
  {
  }

  /** Classifying one more text adds it to the part its role names. */
  lemma ClassifyStep(texts: seq<string>, role: string -> Role, i: nat)
    requires i < |texts|
    ensures var p := Classify(texts[..i], role);
            Classify(texts[..i + 1], role) ==
            match role(texts[i])
            case Number => p.(numbers := p.numbers + [texts[i]])
            case UnitWord => p.(unit := Some(texts[i]))
            case Description => p.(description := p.description + [texts[i]])
            case Ignored => p
  {
    assert texts[..i + 1][..i] == texts[..i];
  }

  /** The classification loop of process_invoice.py:160-169 over a row sorted left to right. */
  method ClassifyRow(row: seq<Token>) returns (parts: RowParts)
    ensures parts == Classify(StrippedTexts(row), RoleOf)
  {
    ghost var texts := StrippedTexts(row);
    var description: seq<string> := [];
    var numbers: seq<string> := [];
    var unit: Option<string> := None;
    for i := 0 to |row|
      invariant RowParts(description, numbers, unit) == Classify(texts[..i], RoleOf)
    {
      var text := Strip(row[i].text);
      assert texts[i] == text;
      ClassifyStep(texts, RoleOf, i);
      match RoleOf(text) {
        case Number => numbers := numbers + [text];
        case UnitWord => unit := Some(text);
        case Description => description := description + [text];
        case Ignored =>
      }
    }
    assert texts[..|row|] == texts;
    parts := RowParts(description, numbers, unit);
  }

  /** The `float` loop of process_invoice.py:187-192: the values that parse, the others skipped. */
  method NumericValuesOf(cleaned: seq<string>) returns (values: seq<real>)
    ensures values == NumericValues(cleaned)
  {
    values := [];
    for i := 0 to |cleaned|
      invariant values == NumericValues(cleaned[..i])
    {
      assert cleaned[..i + 1][..i] == cleaned[..i];
      match ParseFloat(RemoveCommas(cleaned[i])) {
        case Some(v) => values := values + [v];
        case None =>
      }
    }
    assert cleaned[..|cleaned|] == cleaned;
  }

  /** The field assignment of process_invoice.py:177-205 on the `line_item` record; None for the
      IndexError. */
  method AssignFields(description: string, unit: Option<string>, cleaned: seq<string>, values: seq<real>)
    returns (filled: Option<LineItem>)
    requires |values| <= |cleaned|
    ensures filled == AssignNumbers(description, unit, cleaned, values)
  {
    var li := LineItem(description, None, None, unit, None);
    if |cleaned| >= 3 {
      li := li.(unitPrice := Some(cleaned[0]));
      li := li.(quantity := Some(cleaned[1]));
      li := li.(amount := Some(cleaned[2]));
    } else if |cleaned| == 2 {
      if values != [] && |values| < 2 {
        return None;
      }
      if values != [] && values[0] < values[1] && values[0] < 1000.0 {
        li := li.(quantity := Some(cleaned[0]));
        li := li.(amount := Some(cleaned[1]));
      } else {
        li := li.(unitPrice := Some(cleaned[0]));
        li := li.(amount := Some(cleaned[1]));
      }
    } else if |cleaned| == 1 {
      li := li.(amount := Some(cleaned[0]));
    }
    filled := Some(li);
  }

  /** The reconciliation of process_invoice.py:207-221 on the `line_item` record. */
  method ReconcileFields(li: LineItem) returns (r: LineItem)
    ensures r == Reconcile(li)
  {
    r := li;
    var q := ParseField(li.quantity);
    var u := ParseField(li.unitPrice);
    var a := ParseField(li.amount);
    if q.Bad? || u.Bad? || a.Bad? {
      return;
    }
    if NonZero(q) && NonZero(u) && a.Absent? {
      r := r.(amount := Some(DerivedProduct(q.v, u.v)));
    } else if NonZero(q) && NonZero(a) && u.Absent? && q.v > 0.0 {
      r := r.(unitPrice := Some(DerivedQuotient(a.v, q.v)));
    } else if NonZero(u) && NonZero(a) && q.Absent? && u.v > 0.0 {
      r := r.(quantity := Some(DerivedQuotient(a.v, u.v)));
    }
  }

  /** The body of the row loop of process_invoice.py:156-224 after classification. */
  method AssembleParts(digit: char -> bool, parts: RowParts) returns (outcome: RowOutcome)
    ensures outcome == PartsOutcome(digit, parts)
  {
    var description := Strip(JoinSpace(parts.description));
    if description == [] && parts.numbers == [] {
      return NoItem;
    }
    if description == [] && |parts.numbers| < 2 {
      return NoItem;
    }
    var cleaned := CleanedNumbers(Cleaner(digit), parts.numbers);
    var values := NumericValuesOf(cleaned);
    var filled := AssignFields(description, parts.unit, cleaned, values);
    if filled.None? {
      return IndexError;
    }
    var li := ReconcileFields(filled.value);
    outcome := if Emittable(li) then Item(li) else NoItem;
  }

  /** One row of process_invoice.py:154-224, already sorted left to right. */
  method AssembleRow(digit: char -> bool, row: seq<Token>) returns (outcome: RowOutcome)
    ensures outcome == RowOutcomeOf(digit, row)
  {
    var parts := ClassifyRow(row);
    outcome := AssembleParts(digit, parts);
  }

  /** One more row extends the items by that row's outcome. */
  lemma ItemsFromStep(outcome: seq<Token> -> RowOutcome, rows: seq<seq<Token>>, i: nat, items: seq<LineItem>)
    requires i < |rows| && ItemsFrom(outcome, rows[..i]) == Some(items)
    ensures ItemsFrom(outcome, rows[..i + 1]) ==
            match outcome(rows[i])
            case IndexError => None
            case Item(li) => Some(items + [li])
            case NoItem => Some(items)
  {
    assert rows[..i + 1][..i] == rows[..i];
  }

  /** One row of the loop of process_invoice.py:153-224: sorted in place by the left edge,
      then assembled. */
  method SortAndAssemble(digit: char -> bool, tokens: seq<Token>) returns (outcome: RowOutcome)
    ensures outcome == SortedRowOutcome(digit)(tokens)
  {
    var row := new Token[|tokens|](k requires 0 <= k < |tokens| => tokens[k]);
    assert row[..] == tokens;
    SortInPlace(row, Left);
    outcome := AssembleRow(digit, row[..]);
  }

  /** The row loop of process_invoice.py:153-224: the items collected in row order; None when
      a row raises. */
  method AssembleRows(digit: char -> bool, rows: seq<seq<Token>>) returns (result: Option<seq<LineItem>>)
    ensures result == ItemsFrom(SortedRowOutcome(digit), rows)
  {
    ghost var outcome := SortedRowOutcome(digit);
    var items: seq<LineItem> := [];
    for i := 0 to |rows|
      invariant ItemsFrom(outcome, rows[..i]) == Some(items)
    {
      var rowOutcome := SortAndAssemble(digit, rows[i]);
      ItemsFromStep(outcome, rows, i, items);
      match rowOutcome {
        case IndexError =>
          ItemsFromNoneIff(outcome, rows);
          return None;
        case Item(li) => items := items + [li];
        case NoItem =>
      }
    }
    assert rows[..|rows|] == rows;
    result := Some(items);
  }

  /** `parse_line_items_logic` (process_invoice.py:102-226): filter, sort by the top edge,
      group into rows, then assemble the rows; None when a row raises. */
  method ParseLineItems(digit: char -> bool, classes: DateClasses, tokens: seq<Token>)
    returns (result: Option<seq<LineItem>>)
    ensures result == LineItemsResult(digit, classes, tokens)
  {
    var relevant := FilterRelevant(digit, classes, tokens);
    var sorted := new Token[|relevant|](k requires 0 <= k < |relevant| => relevant[k]);
    assert sorted[..] == relevant;
    SortInPlace(sorted, Top);
    var rows := ClusterRows(sorted[..]);
    result := AssembleRows(digit, rows);
  }
}
