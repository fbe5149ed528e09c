/** String and sequence helpers standing for the Python built-ins the parser relies on:
    `str.strip`, `in` on strings, `' '.join`, and single-character `re.sub` filters. */
module Basics {

  datatype Option<+T> = None | Some(value: T)

  /** Python's `str.isspace()`: the characters `str.strip()` removes and `\s` matches. */
  predicate IsSpace(c: char) {
    ('\t' <= c <= '\r') || ('\U{1c}' <= c <= '\U{1f}') || c == ' ' || c == '\U{85}' || c == '\U{a0}'
    || c == '\U{1680}' || ('\U{2000}' <= c <= '\U{200a}') || c == '\U{2028}' || c == '\U{2029}'
    || c == '\U{202f}' || c == '\U{205f}' || c == '\U{3000}'
  }

  /** `a` is obtained from `b` by deleting elements, keeping the order of the rest. */
  predicate IsSubseq<T(==)>(a: seq<T>, b: seq<T>)
    decreases |b|
  {
    a == [] || (b != [] && ((a[0] == b[0] && IsSubseq(a[1..], b[1..])) || IsSubseq(a, b[1..])))
  }

  /** Appending an element to the longer sequence keeps a subsequence one. */
  lemma {:induction false} IsSubseqExtend<T>(a: seq<T>, b: seq<T>, x: T)
    requires IsSubseq(a, b)
    ensures IsSubseq(a, b + [x]) && IsSubseq(a + [x], b + [x])
    decreases |b|
  {
    if b == [] {
      assert a == [];
      assert (a + [x])[1..] == [] && (b + [x])[1..] == [];
    } else {
      assert (b + [x])[1..] == b[1..] + [x];
      if a == [] {
        IsSubseqExtend(a, b[1..], x);
        assert [x] == a + [x];
      } else if a[0] == b[0] && IsSubseq(a[1..], b[1..]) {
        IsSubseqExtend(a[1..], b[1..], x);
        assert (a + [x])[1..] == a[1..] + [x];
      } else {
        IsSubseqExtend(a, b[1..], x);
      }
    }
  }

  lemma {:induction false} IsSubseqTrans<T>(a: seq<T>, b: seq<T>, c: seq<T>)
    requires IsSubseq(a, b) && IsSubseq(b, c)
    ensures IsSubseq(a, c)
    decreases |c|
  {
    if a != [] {
      if b[0] == c[0] && IsSubseq(b[1..], c[1..]) {
        if a[0] == b[0] && IsSubseq(a[1..], b[1..]) {
          IsSubseqTrans(a[1..], b[1..], c[1..]);
        } else {
          IsSubseqTrans(a, b[1..], c[1..]);
        }
      } else {
        IsSubseqTrans(a, b, c[1..]);
      }
    }
  }

  /** Keeps the elements satisfying `keep`, in order: a `re.sub` whose pattern is a single
      character class, or a loop that appends the items passing a test. */
  function Select<T(==)>(s: seq<T>, keep: T -> bool): (r: seq<T>)
    ensures |r| <= |s|
    ensures forall c :: c in r ==> c in s
    decreases |s|
  {
    if s == [] then []
    else if keep(s[0]) then [s[0]] + Select(s[1..], keep)
    else Select(s[1..], keep)
  }

  /** Every element kept passes the test. */
  lemma {:induction false} SelectPasses<T>(s: seq<T>, keep: T -> bool)
    ensures forall i :: 0 <= i < |Select(s, keep)| ==> keep(Select(s, keep)[i])
    decreases |s|
  {
    if s != [] {
      SelectPasses(s[1..], keep);
    }
  }

  /** The filter deletes characters and keeps the order of the rest. */
  lemma {:induction false} SelectIsSubseq<T>(s: seq<T>, keep: T -> bool)
    ensures IsSubseq(Select(s, keep), s)
    decreases |s|
  {
    if s != [] {
      SelectIsSubseq(s[1..], keep);
      var rest := Select(s[1..], keep);
      assert ([s[0]] + rest)[1..] == rest;
    }
  }

  /** An element that passes the filter survives it. */
  lemma {:induction false} SelectKeeps<T>(s: seq<T>, i: nat, keep: T -> bool)
    requires i < |s| && keep(s[i])
    ensures s[i] in Select(s, keep)
    decreases |s|
  {
    if i > 0 {
      SelectKeeps(s[1..], i - 1, keep);
    }
  }

  lemma {:induction false} SelectKeepsAll<T>(s: seq<T>, keep: T -> bool)
    requires forall i :: 0 <= i < |s| ==> keep(s[i])
    ensures Select(s, keep) == s
    decreases |s|
  {
    if s != [] {
      SelectKeepsAll(s[1..], keep);
    }
  }

  lemma {:induction false} SelectEmptyIff<T>(s: seq<T>, keep: T -> bool)
    ensures Select(s, keep) == [] <==> forall i :: 0 <= i < |s| ==> !keep(s[i])
    decreases |s|
  {
    if s != [] {
      SelectEmptyIff(s[1..], keep);
      assert forall i :: 1 <= i < |s| ==> s[i] == s[1..][i - 1];
    }
  }

  lemma {:induction false} SelectConcat<T>(a: seq<T>, b: seq<T>, keep: T -> bool)
    ensures Select(a + b, keep) == Select(a, keep) + Select(b, keep)
    decreases |a|
  {
    if a != [] {
      assert (a + b)[0] == a[0] && (a + b)[1..] == a[1..] + b;
      SelectConcat(a[1..], b, keep);
    } else {
      assert a + b == b;
    }
  }

  /** Filtering by a test and then by a stricter one is filtering by the stricter one alone. */
  lemma {:induction false} SelectSelect<T>(s: seq<T>, weak: T -> bool, strict: T -> bool)
    requires forall x :: strict(x) ==> weak(x)
    ensures Select(Select(s, weak), strict) == Select(s, strict)
    decreases |s|
  {
    if s != [] {
      SelectSelect(s[1..], weak, strict);
      if weak(s[0]) {
        assert Select(s, weak) == [s[0]] + Select(s[1..], weak);
        assert ([s[0]] + Select(s[1..], weak))[1..] == Select(s[1..], weak);
      }
    }
  }

  /** Python's `str.lstrip()`. */
  function TrimStart(s: string): (r: string)
    ensures |r| <= |s| && r == s[|s| - |r|..]
    ensures r == [] || !IsSpace(r[0])
    ensures forall i :: 0 <= i < |s| - |r| ==> IsSpace(s[i])
    decreases |s|
  {
    if s != [] && IsSpace(s[0]) then TrimStart(s[1..]) else s
  }

  /** Python's `str.rstrip()`. */
  function TrimEnd(s: string): (r: string)
    ensures |r| <= |s| && r == s[..|r|]
    ensures r == [] || !IsSpace(r[|r| - 1])
    ensures forall i :: |r| <= i < |s| ==> IsSpace(s[i])
    decreases |s|
  {
    if s != [] && IsSpace(s[|s| - 1]) then TrimEnd(s[..|s| - 1]) else s
  }

  /** Python's `str.strip()`: the infix of `s` left once leading and trailing whitespace is removed. */
  function Strip(s: string): (r: string)
    ensures |r| <= |s|
    ensures r == [] || (!IsSpace(r[0]) && !IsSpace(r[|r| - 1]))
    ensures forall c :: c in r ==> c in s
    ensures (s == [] || (!IsSpace(s[0]) && !IsSpace(s[|s| - 1]))) ==> r == s
  {
    var t := TrimStart(s);
    var r := TrimEnd(t);
    assert forall c :: c in r ==> c in t;
    r
  }

  /** A filter that keeps no whitespace gives the same result on the stripped text. */
  lemma SelectStrip(s: string, keep: char -> bool)
    requires forall c :: IsSpace(c) ==> !keep(c)
    ensures Select(Strip(s), keep) == Select(s, keep)
  {
    SelectTrimStart(s, keep);
    SelectTrimEnd(TrimStart(s), keep);
  }

  lemma {:induction false} SelectTrimStart(s: string, keep: char -> bool)
    requires forall c :: IsSpace(c) ==> !keep(c)
    ensures Select(TrimStart(s), keep) == Select(s, keep)
    decreases |s|
  {
    if s != [] && IsSpace(s[0]) {
      SelectTrimStart(s[1..], keep);
    }
  }

  lemma {:induction false} SelectTrimEnd(s: string, keep: char -> bool)
    requires forall c :: IsSpace(c) ==> !keep(c)
    ensures Select(TrimEnd(s), keep) == Select(s, keep)
    decreases |s|
  {
    if s != [] && IsSpace(s[|s| - 1]) {
      var n := |s| - 1;
      SelectTrimEnd(s[..n], keep);
      assert s == s[..n] + [s[n]];
      SelectConcat(s[..n], [s[n]], keep);
    }
  }

  predicate StartsWith(s: string, prefix: string) {
    |prefix| <= |s| && s[..|prefix|] == prefix
  }

  /** Python's `needle in s` on strings. */
  predicate Contains(s: string, needle: string)
    decreases |s|
  {
    StartsWith(s, needle) || (s != [] && Contains(s[1..], needle))
  }

  /** A needle found in a text is still found once anything is put in front of the text. */
  lemma {:induction false} ContainsAfterPrefix(p: string, s: string, needle: string)
    requires Contains(s, needle)
    ensures Contains(p + s, needle)
    decreases |p|
  {
    if p != [] {
      ContainsAfterPrefix(p[1..], s, needle);
      assert (p + s)[1..] == p[1..] + s;
    } else {
      assert p + s == s;
    }
  }

  /** Python's `' '.join(parts)`. */
  function JoinSpace(parts: seq<string>): (r: string)
    ensures parts == [] ==> r == []
    ensures |parts| == 1 ==> r == parts[0]
    decreases |parts|
  {
    if parts == [] then []
    else if |parts| == 1 then parts[0]
    else parts[0] + " " + JoinSpace(parts[1..])
  }

  /** Every part occurs in the joined text. */
  lemma {:induction false} JoinSpaceContains(parts: seq<string>, i: nat)
    requires i < |parts|
    ensures Contains(JoinSpace(parts), parts[i])
    decreases |parts|
  {
    var joined := JoinSpace(parts);
    if i == 0 {
      if |parts| > 1 {
        assert joined == parts[0] + (" " + JoinSpace(parts[1..]));
        assert joined[..|parts[0]|] == parts[0];
      }
      assert StartsWith(joined, parts[0]);
    } else {
      JoinSpaceContains(parts[1..], i - 1);
      ContainsAfterPrefix(parts[0] + " ", JoinSpace(parts[1..]), parts[i]);
    }
  }
}
