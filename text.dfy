/** The parts of Python's string behaviour that the core relies on:
    `str.lower`, `str.split()`, `str.split('.')[0]`, `str.replace(p, "")`,
    `str.startswith` and `str(int)`. */
module Text {

  /** `c.lower()` for one character: the ASCII letters A-Z, and U+212A
      KELVIN SIGN, which Python lowers to the ASCII 'k'. Other characters
      are kept as they are. */
  function LowerChar(c: char): (l: char)
    ensures 'a' <= l <= 'z' <==> 'a' <= c <= 'z' || 'A' <= c <= 'Z' || c == KelvinSign
  {
    if 'A' <= c <= 'Z' then (c as int - 'A' as int + 'a' as int) as char
    else if c == KelvinSign then 'k'
    else c
  }

  const KelvinSign: char := '\U{212A}'


  /** `s.lower()`, character by character. */
  function Lower(s: string): (r: string)
    ensures |r| == |s|
    ensures forall i :: 0 <= i < |s| ==> r[i] == LowerChar(s[i])
  {
    seq(|s|, i requires 0 <= i < |s| => LowerChar(s[i]))
  }

  /** Lowering twice is lowering once. */
  lemma LowerIdempotent(s: string)
    ensures Lower(Lower(s)) == Lower(s)
  {
    assert forall i :: 0 <= i < |s| ==> LowerChar(LowerChar(s[i])) == LowerChar(s[i]);
  }

  /** Lowering works piecewise. */
  lemma LowerConcat(a: string, b: string)
    ensures Lower(a + b) == Lower(a) + Lower(b)
  {
    assert forall i :: 0 <= i < |a + b| ==> Lower(a + b)[i] == (Lower(a) + Lower(b))[i];
  }

  /** Lowering a text with one more character. */
  lemma LowerSnoc(s: string, c: char)
    ensures Lower(s + [c]) == Lower(s) + [LowerChar(c)]
  {
    LowerConcat(s, [c]);
  }

  /** Lowering all but the last character. */
  lemma LowerInit(s: string)
    requires s != []
    ensures Lower(s)[..|s| - 1] == Lower(s[..|s| - 1])
  {
  }

  /** `s.startswith(p)`. */
  predicate StartsWith(s: string, p: string)
  {
    p <= s
  }

  /** `s.split('.')[0]`: the text before the first '.', or all of `s` when it has none. */
  function FirstDotStem(s: string): (stem: string)
    ensures stem <= s
    ensures '.' !in stem
    ensures |stem| < |s| ==> s[|stem|] == '.'
  {
    if s == [] || s[0] == '.' then [] else [s[0]] + FirstDotStem(s[1..])
  }

  // ---------------------------------------------------------------------------
  // str(n)

  function DigitChar(d: nat): char
    requires d < 10
  {
    ('0' as int + d) as char
  }

  /** The decimal numeral of a natural number, without leading zeros. */
  function NatToDecimal(n: nat): (s: string)
    ensures 1 <= |s|
    ensures forall i :: 0 <= i < |s| ==> '0' <= s[i] <= '9'
    ensures |s| == 1 <==> n < 10
  {
    if n < 10 then [DigitChar(n)] else NatToDecimal(n / 10) + [DigitChar(n % 10)]
  }

  /** `str(n)` for a Python int: a '-' before the numeral of a negative number. */
  function IntToDecimal(n: int): (s: string)
    ensures 1 <= |s|
    ensures forall i :: 0 <= i < |s| ==> s[i] == '-' || '0' <= s[i] <= '9'
    ensures s[0] == '-' <==> n < 0
  {
    if n < 0 then "-" + NatToDecimal(-n) else NatToDecimal(n)
  }

  /** Different numbers have different numerals. */
  lemma {:induction false} NatToDecimalInjective(a: nat, b: nat)
    requires NatToDecimal(a) == NatToDecimal(b)
    ensures a == b
  {
    var sa, sb := NatToDecimal(a), NatToDecimal(b);
    if a >= 10 {
      assert sa[..|sa| - 1] == NatToDecimal(a / 10);
      assert sb[..|sb| - 1] == NatToDecimal(b / 10);
      NatToDecimalInjective(a / 10, b / 10);
      assert DigitChar(a % 10) == sa[|sa| - 1] == DigitChar(b % 10);
    }
  }

  /** Different user ids print differently. */
  lemma IntToDecimalInjective(a: int, b: int)
    requires IntToDecimal(a) == IntToDecimal(b)
    ensures a == b
  {
    if a < 0 {
      assert IntToDecimal(a)[1..] == NatToDecimal(-a);
      assert IntToDecimal(b)[1..] == NatToDecimal(-b);
      NatToDecimalInjective(-a, -b);
    } else {
      NatToDecimalInjective(a, b);
    }
  }

  // ---------------------------------------------------------------------------
  // s.split()

  /** The characters Python's `str.isspace` accepts. */
  predicate IsSpace(c: char)
  {
    || c == ' '
    || 0x09 <= c as int <= 0x0D
    || 0x1C <= c as int <= 0x1F
    || c as int == 0x85
    || c as int == 0xA0
    || c as int == 0x1680
    || 0x2000 <= c as int <= 0x200A
    || c as int == 0x2028
    || c as int == 0x2029
    || c as int == 0x202F
    || c as int == 0x205F
    || c as int == 0x3000
  }

  predicate NoSpace(s: string)
  {
    forall i :: 0 <= i < |s| ==> !IsSpace(s[i])
  }

  /** The longest prefix of `s` without white space. */
  function Word(s: string): (w: string)
    ensures w <= s
    ensures NoSpace(w)
    ensures |w| < |s| ==> IsSpace(s[|w|])
  {
    if s == [] || IsSpace(s[0]) then [] else [s[0]] + Word(s[1..])
  }

  /** `s.split()` with no separator: the maximal runs of non-white-space
      characters, left to right; leading, trailing and repeated white space
      produce no empty tokens. */
  function WhitespaceSplit(s: string): (tokens: seq<string>)
    ensures forall i :: 0 <= i < |tokens| ==> tokens[i] != [] && NoSpace(tokens[i])
    decreases |s|
  {
    if s == [] then []
    else if IsSpace(s[0]) then WhitespaceSplit(s[1..])
    else
      var w := Word(s);
      [w] + WhitespaceSplit(s[|w|..])
  }

  lemma {:induction false} WordOfPrefix(a: string, rest: string)
    requires NoSpace(a)
    requires rest == [] || IsSpace(rest[0])
    ensures Word(a + rest) == a
  {
    if a != [] {
      assert (a + rest)[1..] == a[1..] + rest;
      WordOfPrefix(a[1..], rest);
    }
  }

  /** White space in front of the text is skipped. */
  lemma {:induction false} SplitSkipsLeadingSpace(ws: string, s: string)
    requires forall i :: 0 <= i < |ws| ==> IsSpace(ws[i])
    ensures WhitespaceSplit(ws + s) == WhitespaceSplit(s)
  {
    if ws != [] {
      assert (ws + s)[1..] == ws[1..] + s;
      SplitSkipsLeadingSpace(ws[1..], s);
    } else {
      assert ws + s == s;
    }
  }

  /** A word alone is one token. */
  lemma SplitOneWord(a: string)
    requires a != [] && NoSpace(a)
    ensures WhitespaceSplit(a) == [a]
  {
    WordOfPrefix(a, []);
    assert a + [] == a;
    assert a[|a|..] == [];
  }

  /** Two words around one white-space character are two tokens, as in "10 30". */
  lemma SplitTwoWords(a: string, c: char, b: string)
    requires a != [] && NoSpace(a) && b != [] && NoSpace(b)
    requires IsSpace(c)
    ensures WhitespaceSplit(a + [c] + b) == [a, b]
  {
    var s := a + [c] + b;
    assert s == a + ([c] + b);
    WordOfPrefix(a, [c] + b);
    assert s[|a|..] == [c] + b;
    assert ([c] + b)[1..] == b;
    SplitOneWord(b);
  }

  // ---------------------------------------------------------------------------
  // s.replace(p, "")

  /** `s.replace(p, "")`: scanning left to right, every non-overlapping
      occurrence of `p` is removed. */
  function RemoveAll(s: string, p: string): (r: string)
    requires p != []
    ensures |r| <= |s|
    decreases |s|
  {
    if |s| < |p| then s
    else if s[..|p|] == p then RemoveAll(s[|p|..], p)
    else [s[0]] + RemoveAll(s[1..], p)
  }

  /** `p` stands in `s` at index `i`. */
  predicate OccursAt(p: string, s: string, i: int)
  {
    0 <= i <= |s| - |p| && s[i..i + |p|] == p
  }

  /** `p in s` for strings. */
  predicate OccursIn(p: string, s: string)
  {
    exists i | 0 <= i <= |s| :: OccursAt(p, s, i)
  }

  /** Without the pattern, `s` neither starts with it nor has it after its
      first character. */
  lemma AbsentParts(s: string, p: string)
    requires p != [] && |s| >= |p| && !OccursIn(p, s)
    ensures s[..|p|] != p
    ensures !OccursIn(p, s[1..])
  {
    assert !OccursAt(p, s, 0) && s[0..0 + |p|] == s[..|p|];
    forall i | 0 <= i <= |s[1..]| - |p|
      ensures !OccursAt(p, s[1..], i)
    {
      assert s[1..][i..i + |p|] == s[i + 1..i + 1 + |p|];
      assert !OccursAt(p, s, i + 1);
    }
  }

  /** A text without the pattern is left as it is. */
  lemma {:induction false} RemoveAllAbsent(s: string, p: string)
    requires p != [] && !OccursIn(p, s)
    ensures RemoveAll(s, p) == s
  {
    if |s| >= |p| {
      AbsentParts(s, p);
      RemoveAllAbsent(s[1..], p);
      assert [s[0]] + s[1..] == s;
    }
  }

  /** A leading occurrence of the pattern is dropped. */
  lemma RemoveAllLeading(s: string, p: string)
    requires p != []
    ensures RemoveAll(p + s, p) == RemoveAll(s, p)
  {
    assert (p + s)[..|p|] == p;
    assert (p + s)[|p|..] == s;
  }

  /** A text whose head starts no occurrence keeps its head through
      `RemoveAll`, and the occurrences after the head shift down by one. */
  lemma ShiftAbsent(c: char, u: string, p: string, n: nat)
    requires p != []
    requires forall i :: 0 <= i <= n && i <= |u| ==> !OccursAt(p, [c] + u, i)
    ensures RemoveAll([c] + u, p) == [c] + RemoveAll(u, p)
    ensures forall i :: 0 <= i < n && i < |u| ==> !OccursAt(p, u, i)
  {
    var s := [c] + u;
    assert s[1..] == u;
    assert !OccursAt(p, s, 0);
    if |s| >= |p| {
      assert s[0..0 + |p|] == s[..|p|];
    }
    forall i | 0 <= i < n && i < |u|
      ensures !OccursAt(p, u, i)
    {
      assert !OccursAt(p, s, i + 1);
      if i <= |u| - |p| {
        assert u[i..i + |p|] == s[i + 1..i + 1 + |p|];
      }
    }
  }

  /** The first occurrence of the pattern is removed wherever it stands:
      the text before it is kept, and the scan goes on after it. */
  lemma {:induction false} RemoveAllFirst(a: string, b: string, p: string)
    requires p != []
    requires forall i :: 0 <= i < |a| ==> !OccursAt(p, a + p + b, i)
    ensures RemoveAll(a + p + b, p) == a + RemoveAll(b, p)
    decreases |a|
  {
    var s := a + p + b;
    if a == [] {
      assert s == p + b;
      RemoveAllLeading(b, p);
    } else {
      var t := a[1..];
      assert s == [a[0]] + (t + p + b);
      ShiftAbsent(a[0], t + p + b, p, |t|);
      RemoveAllFirst(t, b, p);
      assert [a[0]] + t == a;
    }
  }
}
