/** The filter at the start of `parse_line_items_logic` (process_invoice.py:109-135): a token
    survives when its stripped text is non-empty, is no noise glyph, contains no skip term, is
    no column-header label and is shaped neither like a date nor like a time. */
module TokenFilter {
  import opened Basics
  import opened Numbers
  import opened Amount
  import opened Tokens

  /** The single-glyph texts dropped as noise (process_invoice.py:126). */
  const NoiseGlyphs: seq<string> :=
    ["-", "/", "\\", "|", "=", "_", ".", ":", ";", "(", ")", "#", "半", "¥", "￥"]

  /** Header, address and bank vocabulary; a token containing any of them is dropped
      (process_invoice.py:110-117). */
  const SkipTerms: seq<string> := [
    "請求書番号", "請求日", "お支払期限", "振込先", "小計", "消費税", "合計",
    "INVOICE", "TEL:", "登録番号", "東京都", "御中", "様", "担当者",
    "備考", "りそな銀行", "秋葉原支店", "普通", "下記のとおり", "ご請求金額",
    "年", "月", "日", "消費税対象", "口座", "銀行", "振込手数料",
    "振込先銀行", "支店", "口座番号", "口座名義", "税抜金額", "税込み",
    "商品コード", "伝票番号", "番号"
  ]

  /** Table-column labels; a token equal to one of them is dropped (process_invoice.py:120). */
  const ColumnHeaders: seq<string> := ["品目名", "商品名", "サービス内容", "明細", "単価", "数量", "金額", "単位"]

  /** Python's `any(term in text for term in terms)`. */
  predicate ContainsAny(text: string, terms: seq<string>) {
    exists k :: 0 <= k < |terms| && Contains(text, terms[k])
  }

  predicate AllDigits(digit: char -> bool, s: string) {
    forall i :: 0 <= i < |s| ==> digit(s[i])
  }

  /** `\d{1,2}日?` reaching the end of `t`. */
  predicate DayPart(digit: char -> bool, t: string) {
    || (1 <= |t| <= 2 && AllDigits(digit, t))
    || (2 <= |t| <= 3 && t[|t| - 1] == '日' && AllDigits(digit, t[..|t| - 1]))
  }

  /** `\d{a}` followed by an optional `sep2` and a `DayPart`. */
  predicate MonthThenDay(digit: char -> bool, sep2: char -> bool, t: string, a: nat) {
    && a < |t|
    && AllDigits(digit, t[..a])
    && (DayPart(digit, t[a..]) || (sep2(t[a]) && DayPart(digit, t[a + 1..])))
  }

  /** A full match of `\d{4}S1\d{1,2}S2?\d{1,2}日?` where S1 and S2 are the given separator
      classes; the two choices of `\d{1,2}` for the month are both tried, as the regex engine's
      backtracking does. */
  predicate DateShapedWith(digit: char -> bool, sep1: char -> bool, sep2: char -> bool, s: string) {
    && |s| >= 5
    && AllDigits(digit, s[..4])
    && sep1(s[4])
    && (MonthThenDay(digit, sep2, s[5..], 1) || MonthThenDay(digit, sep2, s[5..], 2))
  }

  /** The separators the date pattern of line 132 was written for: `/`, `-` or 年, then
      optionally `/`, `-` or 月. */
  predicate YearSeparator(c: char) {
    c == '/' || c == '-' || c == '年'
  }

  predicate MonthSeparator(c: char) {
    c == '/' || c == '-' || c == '月'
  }

  /** The classes as Python reads them: in `[/-年]` and `[/-月]` the hyphen makes a range, from
      U+002F to U+5E74 and to U+6708, which holds every ASCII digit, letter and colon, all
      hiragana and full-width katakana, and part of the CJK ideographs. */
  predicate YearSeparatorAsWritten(c: char) {
    '/' <= c <= '年'
  }

  predicate MonthSeparatorAsWritten(c: char) {
    '/' <= c <= '月'
  }

  /** Which reading of the separator classes of process_invoice.py:132 the filter applies: the
      ranges the regex engine reads (`AsWritten`, the program as it runs) or the literal
      separators the pattern was written for (`Intended`). */
  datatype DateClasses = AsWritten | Intended

  /** The date shape of process_invoice.py:132 with the separators intended. */
  predicate IsDateShaped(digit: char -> bool, s: string) {
    DateShapedWith(digit, YearSeparator, MonthSeparator, s)
  }

  /** The date shape of process_invoice.py:132 as the regex engine reads it. */
  predicate IsDateShapedAsWritten(digit: char -> bool, s: string) {
    DateShapedWith(digit, YearSeparatorAsWritten, MonthSeparatorAsWritten, s)
  }

  /** The date test of the filter under the given reading of its classes. */
  predicate IsDateShapedUnder(digit: char -> bool, classes: DateClasses, s: string) {
    match classes
    case AsWritten => IsDateShapedAsWritten(digit, s)
    case Intended => IsDateShaped(digit, s)
  }

  /** A full match of `\d{1,2}:\d{2}` (process_invoice.py:132). */
  predicate IsTimeShaped(digit: char -> bool, s: string) {
    || (|s| == 4 && digit(s[0]) && s[1] == ':' && digit(s[2]) && digit(s[3]))
    || (|s| == 5 && digit(s[0]) && digit(s[1]) && s[2] == ':' && digit(s[3]) && digit(s[4]))
  }

  /** The four tests of process_invoice.py:125-133 on the stripped text. */
  predicate KeepText(digit: char -> bool, classes: DateClasses, text: string) {
    && |text| >= 1
    && text !in NoiseGlyphs
    && !ContainsAny(text, SkipTerms)
    && text !in ColumnHeaders
    && !IsDateShapedUnder(digit, classes, text)
    && !IsTimeShaped(digit, text)
  }

  predicate Keep(digit: char -> bool, classes: DateClasses, t: Token) {
    KeepText(digit, classes, Strip(t.text))
  }

  function KeepTest(digit: char -> bool, classes: DateClasses): Token -> bool {
    t => Keep(digit, classes, t)
  }

  /** The tokens that survive the filter, in input order. */
  function Relevant(digit: char -> bool, classes: DateClasses, tokens: seq<Token>): seq<Token> {
    Select(tokens, KeepTest(digit, classes))
  }

  /** The survivors pass every test, come from the input and keep their order. */
  lemma RelevantSound(digit: char -> bool, classes: DateClasses, tokens: seq<Token>)
    ensures forall i :: 0 <= i < |Relevant(digit, classes, tokens)| ==> Keep(digit, classes, Relevant(digit, classes, tokens)[i])
    ensures IsSubseq(Relevant(digit, classes, tokens), tokens)
  {
    SelectPasses(tokens, KeepTest(digit, classes));
    SelectIsSubseq(tokens, KeepTest(digit, classes));
  }

  /** Every token that passes the tests survives. */
  lemma RelevantComplete(digit: char -> bool, classes: DateClasses, tokens: seq<Token>, i: nat)
    requires i < |tokens| && Keep(digit, classes, tokens[i])
    ensures tokens[i] in Relevant(digit, classes, tokens)
  {
    SelectKeeps(tokens, i, KeepTest(digit, classes));
  }

  lemma RelevantAppend(digit: char -> bool, classes: DateClasses, tokens: seq<Token>, t: Token)
    ensures Relevant(digit, classes, tokens + [t]) == Relevant(digit, classes, tokens) + (if Keep(digit, classes, t) then [t] else [])
  {
    SelectConcat(tokens, [t], KeepTest(digit, classes));
    assert Select([t], KeepTest(digit, classes)) == if Keep(digit, classes, t) then [t] else [];
  }

  /** One more token of the input adds itself to the survivors exactly when its stripped text
      passes the tests. */
  lemma RelevantStep(digit: char -> bool, classes: DateClasses, tokens: seq<Token>, i: nat)
    requires i < |tokens|
    ensures Relevant(digit, classes, tokens[..i + 1]) ==
            Relevant(digit, classes, tokens[..i]) +
            (if KeepText(digit, classes, Strip(tokens[i].text)) then [tokens[i]] else [])
  {
    assert tokens[..i + 1] == tokens[..i] + [tokens[i]];
    RelevantAppend(digit, classes, tokens[..i], tokens[i]);
  }

  /** The loop of process_invoice.py:123-135, appending each surviving token. */
  method FilterRelevant(digit: char -> bool, classes: DateClasses, tokens: seq<Token>) returns (relevant: seq<Token>)
    ensures relevant == Relevant(digit, classes, tokens)
  {
    relevant := [];
    var i := 0;
    while i < |tokens|
      invariant 0 <= i <= |tokens|
      invariant relevant == Relevant(digit, classes, tokens[..i])
    {
      var item := tokens[i];
      var text := Strip(item.text);
      RelevantStep(digit, classes, tokens, i);
      if |text| < 1 || text in NoiseGlyphs {
      } else if ContainsAny(text, SkipTerms) {
      } else if text in ColumnHeaders {
      } else if IsDateShapedUnder(digit, classes, text) || IsTimeShaped(digit, text) {
      } else {
        relevant := relevant + [item];
      }
      i := i + 1;
    }
    assert tokens[..i] == tokens;
  }

  predicate IsNumberChar(c: char) {
    IsAsciiDigit(c) || c == ',' || c == '.'
  }

  lemma NumberTokenChars(s: string)
    requires IsNumberToken(s)
    ensures s != [] && IsDigitOrComma(s[0])
    ensures forall c :: c in s ==> IsNumberChar(c)
  {
    var k := IndexOf(s, '.');
    forall i | 0 <= i < |s| ensures IsNumberChar(s[i]) {
      if i < k {
        assert IsDigitOrComma(s[i]);
      }
    }
  }

  /** `clean_amount` leaves a number token as it is. */
  lemma NumberTokenCleansToItself(digit: char -> bool, s: string)
    requires DigitsWellFormed(digit) && IsNumberToken(s)
    ensures CleanAmount(digit, s) == Some(s)
  {
    NumberTokenChars(s);
    forall i | 0 <= i < |s| ensures IsAmountChar(digit, s[i]) {
      assert s[i] in s;
    }
    CleanAmountFixesAmountText(digit, s);
  }

  /** A needle occurs only where its first character does. */
  lemma {:induction false} ContainsFirstChar(s: string, needle: string)
    requires needle != [] && Contains(s, needle)
    ensures needle[0] in s
    decreases |s|
  {
    if !StartsWith(s, needle) {
      ContainsFirstChar(s[1..], needle);
    } else {
      assert s[0] == needle[0];
    }
  }

  /** No number token (process_invoice.py:162) is shaped like a date or a time, with the
      intended separators. */
  lemma NumberTokensAreNotDates(digit: char -> bool, s: string)
    requires IsNumberToken(s)
    ensures !IsDateShaped(digit, s) && !IsTimeShaped(digit, s)
  {
    var k := IndexOf(s, '.');
    if |s| >= 5 {
      assert s[4] == '.' || IsDigitOrComma(s[4]) || IsAsciiDigit(s[4]);
    }
    if |s| == 4 || |s| == 5 {
      assert s[1] != ':' && s[2] != ':';
    }
  }

  /** A clock time "h:mm" or "hh:mm" in ASCII digits is dropped, whichever date classes apply. */
  lemma ClockTimesDropped(digit: char -> bool, classes: DateClasses, s: string)
    requires DigitsWellFormed(digit)
    requires (|s| == 4 || |s| == 5) && s[|s| - 3] == ':'
    requires forall i :: 0 <= i < |s| && i != |s| - 3 ==> IsAsciiDigit(s[i])
    ensures IsTimeShaped(digit, s) && !KeepText(digit, classes, s)
  {
  }

  /** Every number token (process_invoice.py:162) survives the filter with the intended date
      classes: amounts are never dropped as noise, boilerplate, headers, dates or times. */
  lemma NumberTokensSurvive(digit: char -> bool, t: Token)
    requires IsNumberToken(Strip(t.text))
    ensures Keep(digit, Intended, t)
  {
    NumberTextSurvives(digit, Strip(t.text));
  }

  lemma NumberTextSurvives(digit: char -> bool, text: string)
    requires IsNumberToken(text)
    ensures KeepText(digit, Intended, text)
  {
    NumberTokensAreNotDates(digit, text);
    NumberTokenChars(text);
    NoiseAndHeadersStartWithLetters();
    LowTextHasNoSkipTerm(text);
  }

  lemma NoiseAndHeadersStartWithLetters()
    ensures forall w :: w in NoiseGlyphs ==> w != [] && !IsDigitOrComma(w[0])
    ensures forall w :: w in ColumnHeaders ==> w != [] && !IsDigitOrComma(w[0])
  {
  }

  lemma SkipTermsStartWithLetters()
    ensures forall k :: 0 <= k < |SkipTerms| ==> SkipTerms[k] != [] && SkipTerms[k][0] > '9'
  {
  }

  /** Every skip term starts above '9', so a text made of characters up to '9' holds none. */
  lemma LowTextHasNoSkipTerm(text: string)
    requires forall c :: c in text ==> c <= '9'
    ensures !ContainsAny(text, SkipTerms)
  {
    if ContainsAny(text, SkipTerms) {
      var j :| 0 <= j < |SkipTerms| && Contains(text, SkipTerms[j]);
      var term := SkipTerms[j];
      SkipTermsStartWithLetters();
      ContainsFirstChar(text, term);
      assert false;
    }
  }

  /** A run of ASCII digits is a number token. */
  lemma DigitRunIsNumberToken(s: string)
    requires s != [] && forall i :: 0 <= i < |s| ==> IsAsciiDigit(s[i])
    ensures IsNumberToken(s)
  {
    assert IndexOf(s, '.') == |s|;
  }

  /** As written, the date test takes every run of 7 to 10 ASCII digits: the fifth digit serves as
      the year separator and, for ten digits, the eighth as the month separator. The filter
      drops such an amount, which the intended filter keeps. */
  lemma DigitRunsAreDatesAsWritten(digit: char -> bool, s: string)
    requires DigitsWellFormed(digit)
    requires 7 <= |s| <= 10 && forall i :: 0 <= i < |s| ==> IsAsciiDigit(s[i])
    ensures IsDateShapedAsWritten(digit, s)
    ensures !KeepText(digit, AsWritten, s) && KeepText(digit, Intended, s)
  {
    assert AllDigits(digit, s[..4]);
    assert YearSeparatorAsWritten(s[4]);
    var t := s[5..];
    assert forall i :: 0 <= i < |t| ==> digit(t[i]) && MonthSeparatorAsWritten(t[i]);
    if |t| <= 3 {
      assert AllDigits(digit, t[..1]) && AllDigits(digit, t[1..]);
      assert MonthThenDay(digit, MonthSeparatorAsWritten, t, 1);
    } else if |t| == 4 {
      assert AllDigits(digit, t[..2]) && AllDigits(digit, t[2..]);
      assert MonthThenDay(digit, MonthSeparatorAsWritten, t, 2);
    } else {
      assert AllDigits(digit, t[..2]) && AllDigits(digit, t[3..]);
      assert MonthThenDay(digit, MonthSeparatorAsWritten, t, 2);
    }
    DigitRunIsNumberToken(s);
    NumberTextSurvives(digit, s);
  }

  /** The date `y-m-d` with hyphens, a four-digit year and a month and day of one or two digits. */
  function HyphenDate(y: string, m: string, d: string): string {
    y + "-" + m + "-" + d
  }

  predicate IsDatePart(s: string, lo: nat, hi: nat) {
    lo <= |s| <= hi && forall i :: 0 <= i < |s| ==> IsAsciiDigit(s[i])
  }

  /** As written, neither class holds '-' (U+002D lies below '/', U+002F), so the filter keeps a
      hyphenated date. */
  lemma HyphenDatesKeptAsWritten(digit: char -> bool, y: string, m: string, d: string)
    requires DigitsWellFormed(digit)
    requires IsDatePart(y, 4, 4) && IsDatePart(m, 1, 2) && IsDatePart(d, 1, 2)
    ensures KeepText(digit, AsWritten, HyphenDate(y, m, d))
  {
    var s := HyphenDate(y, m, d);
    assert s[4] == '-' && s[0] == y[0];
    assert forall c :: c in s ==> c == '-' || IsAsciiDigit(c);
    NoiseAndHeadersStartWithLetters();
    LowTextHasNoSkipTerm(s);
  }

  /** The intended filter drops every hyphenated date. */
  lemma IntendedDropsHyphenDates(digit: char -> bool, y: string, m: string, d: string)
    requires DigitsWellFormed(digit)
    requires IsDatePart(y, 4, 4) && IsDatePart(m, 1, 2) && IsDatePart(d, 1, 2)
    ensures IsDateShaped(digit, HyphenDate(y, m, d))
    ensures !KeepText(digit, Intended, HyphenDate(y, m, d))
  {
    var s := HyphenDate(y, m, d);
    assert s[..4] == y && s[4] == '-';
    var t := s[5..];
    assert t == m + "-" + d;
    assert t[..|m|] == m && t[|m|] == '-' && t[|m| + 1..] == d;
    assert AllDigits(digit, y) && AllDigits(digit, m) && AllDigits(digit, d);
    assert MonthThenDay(digit, MonthSeparator, t, |m|);
  }

  /** "2024-01-15" is a date with the intended classes but not with the classes as written, so
      the program keeps it and the intended filter drops it. */
  lemma HyphenDateKeptOnlyAsWritten(digit: char -> bool)
    requires DigitsWellFormed(digit)
    ensures IsDateShaped(digit, "2024-01-15") && !IsDateShapedAsWritten(digit, "2024-01-15")
    ensures KeepText(digit, AsWritten, "2024-01-15") && !KeepText(digit, Intended, "2024-01-15")
  {
    assert HyphenDate("2024", "01", "15") == "2024-01-15";
    HyphenDatesKeptAsWritten(digit, "2024", "01", "15");
    IntendedDropsHyphenDates(digit, "2024", "01", "15");
  }

  /** The regex as written drops a plain seven-digit amount as if it were a date: "1250000"
      reads as year 1250, separator '0', month 0, day 0. */
  lemma PlainAmountDroppedAsWritten(digit: char -> bool)
    requires DigitsWellFormed(digit)
    ensures IsNumberToken("1250000")
    ensures IsDateShapedAsWritten(digit, "1250000")
    ensures !IsDateShaped(digit, "1250000")
    ensures !KeepText(digit, AsWritten, "1250000") && KeepText(digit, Intended, "1250000")
  {
    var s := "1250000";
    assert forall i :: 0 <= i < |s| ==> IsAsciiDigit(s[i]);
    DigitRunIsNumberToken(s);
    NumberTokensAreNotDates(digit, s);
    DigitRunsAreDatesAsWritten(digit, s);
  }
}
