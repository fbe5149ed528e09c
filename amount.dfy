/** `clean_amount` (process_invoice.py:86-95): two single-character substitutions. The first
    deletes 半, #, ¥, ￥ and whitespace; the second deletes everything that is not a digit, a
    comma or a dot. An empty input or an empty result gives None. */
module Amount {
  import opened Basics

  /** What the proofs need of Python's `\d` (Unicode decimal digits), passed in as `digit`:
      the ASCII digits are digits, and no separator, currency glyph or whitespace character is. */
  ghost predicate DigitsWellFormed(digit: char -> bool) {
    && (forall c :: '0' <= c <= '9' ==> digit(c))
    && (forall c :: IsSpace(c) ==> !digit(c))
    && !digit(',') && !digit('.') && !digit('/') && !digit('-') && !digit(':')
    && !digit('年') && !digit('月') && !digit('日')
    && !digit('半') && !digit('#') && !digit('¥') && !digit('￥')
  }

  /** The class `[半#¥￥\s]` of the first substitution. */
  predicate IsRemovedGlyph(c: char) {
    c == '半' || c == '#' || c == '¥' || c == '￥' || IsSpace(c)
  }

  predicate NotRemovedGlyph(c: char) {
    !IsRemovedGlyph(c)
  }

  /** The class `[\d,.]` whose complement the second substitution deletes. */
  predicate IsAmountChar(digit: char -> bool, c: char) {
    digit(c) || c == ',' || c == '.'
  }

  function AmountCharTest(digit: char -> bool): char -> bool {
    c => IsAmountChar(digit, c)
  }

  function CleanAmount(digit: char -> bool, s: string): (r: Option<string>)
    ensures r.Some? ==> r.value != [] && IsSubseq(r.value, s)
    ensures r.Some? ==> forall i :: 0 <= i < |r.value| ==>
                          IsAmountChar(digit, r.value[i]) && !IsRemovedGlyph(r.value[i])
  {
    if s == [] then None
    else
      var first := Select(s, NotRemovedGlyph);
      var cleaned := Select(first, AmountCharTest(digit));
      SelectPasses(s, NotRemovedGlyph);
      SelectPasses(first, AmountCharTest(digit));
      SelectIsSubseq(s, NotRemovedGlyph);
      SelectIsSubseq(first, AmountCharTest(digit));
      IsSubseqTrans(cleaned, first, s);
      assert forall i :: 0 <= i < |cleaned| ==> cleaned[i] in first && NotRemovedGlyph(cleaned[i]);
      if cleaned == [] then None else Some(cleaned)
  }

  /** The first substitution never deletes a digit, a comma or a dot, so the result is what the
      second substitution alone keeps of the input, or None when that is empty. */
  lemma CleanAmountIsSelection(digit: char -> bool, s: string)
    requires DigitsWellFormed(digit)
    ensures var kept := Select(s, AmountCharTest(digit));
            CleanAmount(digit, s) == if kept == [] then None else Some(kept)
  {
    SelectSelect(s, NotRemovedGlyph, AmountCharTest(digit));
  }

  /** None exactly when the input is empty or has no digit, comma or dot. */
  lemma CleanAmountNoneIff(digit: char -> bool, s: string)
    requires DigitsWellFormed(digit)
    ensures CleanAmount(digit, s) == None <==>
            (s == [] || forall i :: 0 <= i < |s| ==> !IsAmountChar(digit, s[i]))
  {
    if s != [] {
      var first := Select(s, NotRemovedGlyph);
      SelectEmptyIff(first, AmountCharTest(digit));
      if forall i :: 0 <= i < |s| ==> !IsAmountChar(digit, s[i]) {
        forall i | 0 <= i < |first| ensures !IsAmountChar(digit, first[i]) {
          assert first[i] in s;
        }
      } else {
        var i :| 0 <= i < |s| && IsAmountChar(digit, s[i]);
        SelectKeeps(s, i, NotRemovedGlyph);
        var j :| 0 <= j < |first| && first[j] == s[i];
      }
    }
  }

  /** Cleaning an already cleaned amount changes nothing. */
  lemma CleanAmountIdempotent(digit: char -> bool, s: string)
    requires CleanAmount(digit, s).Some?
    ensures CleanAmount(digit, CleanAmount(digit, s).value) == CleanAmount(digit, s)
  {
    var v := CleanAmount(digit, s).value;
    SelectKeepsAll(v, NotRemovedGlyph);
    SelectKeepsAll(v, AmountCharTest(digit));
  }

  /** A string made of digits, commas and dots only comes back unchanged. */
  lemma CleanAmountFixesAmountText(digit: char -> bool, s: string)
    requires DigitsWellFormed(digit)
    requires s != [] && forall i :: 0 <= i < |s| ==> IsAmountChar(digit, s[i])
    ensures CleanAmount(digit, s) == Some(s)
  {
    SelectKeepsAll(s, NotRemovedGlyph);
    SelectKeepsAll(s, AmountCharTest(digit));
  }
}
