/** The JavaScript string built-ins the planner relies on, written out: `trim`,
    `toLowerCase`, `split` on one character, `Array.prototype.join`, the decimal
    rendering of an integer in a template string, and `parseInt(s, 10)`. */
module Text {
  import opened Wrappers

  // ---------------------------------------------------------------------------
  // White space and trimming
  // ---------------------------------------------------------------------------

  /** White space and line terminators as JavaScript defines them: the characters
      that `trim`, `trimStart` and the regular-expression class `\s` remove. */
  predicate IsSpace(c: char) {
    || c == ' ' || c == '\t' || c == '\n' || c == '\r'
    || c == '\U{000B}' || c == '\U{000C}' || c == '\U{00A0}' || c == '\U{1680}'
    || ('\U{2000}' <= c <= '\U{200A}')
    || c == '\U{2028}' || c == '\U{2029}' || c == '\U{202F}' || c == '\U{205F}'
    || c == '\U{3000}' || c == '\U{FEFF}'
  }

  predicate AllSpace(s: string) {
    forall i :: 0 <= i < |s| ==> IsSpace(s[i])
  }

  /** The number of white-space characters `s` starts with. */
  function SpanStart(s: string): (k: nat)
    ensures k <= |s|
    ensures forall i :: 0 <= i < k ==> IsSpace(s[i])
    ensures k < |s| ==> !IsSpace(s[k])
  {
    if |s| > 0 && IsSpace(s[0]) then 1 + SpanStart(s[1..]) else 0
  }

  /** The length of `s` without the white space it ends with. */
  function SpanEnd(s: string): (k: nat)
    ensures k <= |s|
    ensures forall i :: k <= i < |s| ==> IsSpace(s[i])
    ensures k > 0 ==> !IsSpace(s[k - 1])
  {
    if |s| > 0 && IsSpace(s[|s| - 1]) then SpanEnd(s[..|s| - 1]) else |s|
  }

  /** The two properties of `SpanStart` determine it. */
  lemma SpanStartUnique(s: string, k: nat)
    requires k <= |s|
    requires forall i :: 0 <= i < k ==> IsSpace(s[i])
    requires k < |s| ==> !IsSpace(s[k])
    ensures SpanStart(s) == k
  {
  }

  /** The two properties of `SpanEnd` determine it. */
  lemma SpanEndUnique(s: string, k: nat)
    requires k <= |s|
    requires forall i :: k <= i < |s| ==> IsSpace(s[i])
    requires k > 0 ==> !IsSpace(s[k - 1])
    ensures SpanEnd(s) == k
  {
  }

  /** Drops the leading white space: what is left is a suffix of `s` that is empty
      or starts with a non-space, and everything dropped is white space. */
  function TrimStart(s: string): (r: string)
    ensures |r| <= |s| && r == s[|s| - |r|..]
    ensures forall i :: 0 <= i < |s| - |r| ==> IsSpace(s[i])
    ensures r == [] || !IsSpace(r[0])
  {
    s[SpanStart(s)..]
  }

  /** Drops the trailing white space: what is left is a prefix of `s` that is empty
      or ends with a non-space, and everything dropped is white space. */
  function TrimEnd(s: string): (r: string)
    ensures |r| <= |s| && r == s[..|r|]
    ensures forall i :: |r| <= i < |s| ==> IsSpace(s[i])
    ensures r == [] || !IsSpace(r[|r| - 1])
  {
    s[..SpanEnd(s)]
  }

  lemma TrimStartAllSpace(s: string)
    ensures TrimStart(s) == [] <==> AllSpace(s)
  {
  }

  lemma TrimEndAllSpace(s: string)
    ensures TrimEnd(s) == [] <==> AllSpace(s)
  {
  }

  /** A string that starts with a non-space keeps its start. */
  lemma TrimStartOfNonSpace(s: string)
    requires s != [] && !IsSpace(s[0])
    ensures TrimStart(s) == s
  {
  }

  /** Trimming the start of a concatenation: the prefix disappears only when it
      is all white space. */
  lemma TrimStartAppend(p: string, x: string)
    ensures TrimStart(p + x) == if AllSpace(p) then TrimStart(x) else TrimStart(p) + x
  {
    var s := p + x;
    if AllSpace(p) {
      SpanStartUnique(s, |p| + SpanStart(x));
      assert s[|p| + SpanStart(x)..] == x[SpanStart(x)..];
    } else {
      SpanStartUnique(s, SpanStart(p));
      assert s[SpanStart(p)..] == p[SpanStart(p)..] + x;
    }
  }

  /** Trimming the end of a concatenation: the suffix disappears only when it is
      all white space. */
  lemma TrimEndAppend(p: string, x: string)
    ensures TrimEnd(p + x) == if AllSpace(x) then TrimEnd(p) else p + TrimEnd(x)
  {
    var s := p + x;
    if AllSpace(x) {
      SpanEndUnique(s, SpanEnd(p));
      assert s[..SpanEnd(p)] == p[..SpanEnd(p)];
    } else {
      SpanEndUnique(s, |p| + SpanEnd(x));
      assert s[..|p| + SpanEnd(x)] == p + x[..SpanEnd(x)];
    }
  }

  /** Trimming the two ends in either order gives the same string. */
  lemma TrimCommutes(s: string)
    ensures TrimEnd(TrimStart(s)) == TrimStart(TrimEnd(s))
  {
    var a, b := SpanStart(s), SpanEnd(s);
    if a == |s| {
      assert TrimStart(s) == [];
      assert AllSpace(s);
      assert TrimEnd(s) == [];
    } else {
      assert a < b by {
        assert !IsSpace(s[a]);
      }
      SpanEndUnique(s[a..], b - a);
      SpanStartUnique(s[..b], a);
      assert s[a..][..b - a] == s[..b][a..];
    }
  }

  /** `String.prototype.trim`: both ends stripped of white space. */
  function Trim(s: string): (r: string)
    ensures r == TrimStart(TrimEnd(s))
    ensures r == [] <==> AllSpace(s)
    ensures r != [] ==> !IsSpace(r[0]) && !IsSpace(r[|r| - 1])
  {
    TrimCommutes(s);
    var r := TrimEnd(TrimStart(s));
    assert r != [] ==> r[0] == TrimStart(s)[0];
    r
  }

  /** A string with no white space at either end is its own trim. */
  lemma TrimOfTrimmed(s: string)
    requires s == [] || (!IsSpace(s[0]) && !IsSpace(s[|s| - 1]))
    ensures Trim(s) == s
  {
  }

  /** Trimming twice is trimming once. */
  lemma TrimIdempotent(s: string)
    ensures Trim(Trim(s)) == Trim(s)
  {
    TrimOfTrimmed(Trim(s));
  }

  /** Drops one carriage return at the end of a line: splitting on `/\r?\n/` is
      splitting on `\n` and then applying this to every piece. */
  function StripCR(s: string): (r: string)
    ensures r == s || (s == r + "\r")
  {
    if |s| > 0 && s[|s| - 1] == '\r' then s[..|s| - 1] else s
  }

  /** The carriage return dropped by `StripCR` is also white space for `trim`. */
  lemma TrimStripCR(s: string)
    ensures Trim(StripCR(s)) == Trim(s)
  {
    if |s| > 0 && s[|s| - 1] == '\r' {
      var front := s[..|s| - 1];
      assert s == front + "\r";
      assert AllSpace("\r");
      TrimEndAppend(front, "\r");
      assert TrimEnd(s) == TrimEnd(front);
    }
  }

  // ---------------------------------------------------------------------------
  // Lower case
  // ---------------------------------------------------------------------------

  /** `toLowerCase` on one character, for the Latin and Cyrillic capitals the
      planner's meal names can contain (A-Z, U+0400-U+042F and Ukrainian Ge). */
  function LowerChar(c: char): (r: char)
    ensures 'A' <= c <= 'Z' ==> r as int == c as int + 32
    ensures '\U{0410}' <= c <= '\U{042F}' ==> r as int == c as int + 0x20
    ensures '\U{0400}' <= c <= '\U{040F}' ==> r as int == c as int + 0x50
    ensures !('A' <= c <= 'Z') && !('\U{0400}' <= c <= '\U{042F}') && c != '\U{0490}' ==> r == c
  {
    if 'A' <= c <= 'Z' then (c as int + 32) as char
    else if '\U{0410}' <= c <= '\U{042F}' then (c as int + 0x20) as char
    else if '\U{0400}' <= c <= '\U{040F}' then (c as int + 0x50) as char
    else if c == '\U{0490}' then '\U{0491}'
    else c
  }

  /** `toLowerCase`: every character lowered on its own. */
  function ToLower(s: string): (r: string)
    ensures |r| == |s|
    ensures forall i :: 0 <= i < |s| ==> r[i] == LowerChar(s[i])
  {
    seq(|s|, i requires 0 <= i < |s| => LowerChar(s[i]))
  }

  /** Lowering a lower-case character changes nothing. */
  lemma LowerCharIdempotent(c: char)
    ensures LowerChar(LowerChar(c)) == LowerChar(c)
  {
  }

  /** Lowering twice is lowering once. */
  lemma ToLowerIdempotent(s: string)
    ensures ToLower(ToLower(s)) == ToLower(s)
  {
    forall i | 0 <= i < |s|
      ensures ToLower(ToLower(s))[i] == ToLower(s)[i]
    {
      LowerCharIdempotent(s[i]);
    }
  }

  // ---------------------------------------------------------------------------
  // split and join
  // ---------------------------------------------------------------------------

  /** `s.split(sep)` for a one-character separator: always at least one piece,
      and no piece contains the separator. */
  function Split(s: string, sep: char): (r: seq<string>)
    ensures |r| >= 1
    ensures forall i :: 0 <= i < |r| ==> sep !in r[i]
    decreases |s|
  {
    if |s| == 0 then [[]]
    else
      var rest := Split(s[1..], sep);
      if s[0] == sep then [[]] + rest else [[s[0]] + rest[0]] + rest[1..]
  }

  /** `parts.join(sep)`. */
  function Join(parts: seq<string>, sep: char): string
  {
    if |parts| == 0 then []
    else if |parts| == 1 then parts[0]
    else parts[0] + [sep] + Join(parts[1..], sep)
  }

  lemma {:induction false} SplitNoSeparator(x: string, sep: char)
    requires sep !in x
    ensures Split(x, sep) == [x]
    decreases |x|
  {
    if |x| > 0 {
      SplitNoSeparator(x[1..], sep);
      assert [x[0]] + x[1..] == x;
    }
  }

  lemma {:induction false} SplitAfterPiece(x: string, sep: char, y: string)
    requires sep !in x
    ensures Split(x + [sep] + y, sep) == [x] + Split(y, sep)
    decreases |x|
  {
    if |x| == 0 {
      assert x + [sep] + y == [sep] + y;
      assert ([sep] + y)[1..] == y;
    } else {
      assert (x + [sep] + y)[1..] == x[1..] + [sep] + y;
      SplitAfterPiece(x[1..], sep, y);
      assert [x[0]] + x[1..] == x;
    }
  }

  /** Splitting a joined list gives the list back when no piece holds the separator. */
  lemma {:induction false} SplitJoin(parts: seq<string>, sep: char)
    requires |parts| >= 1
    requires forall i :: 0 <= i < |parts| ==> sep !in parts[i]
    ensures Split(Join(parts, sep), sep) == parts
  {
    if |parts| == 1 {
      SplitNoSeparator(parts[0], sep);
    } else {
      SplitJoin(parts[1..], sep);
      SplitAfterPiece(parts[0], sep, Join(parts[1..], sep));
      assert [parts[0]] + parts[1..] == parts;
    }
  }

  /** Joining the pieces of a split gives the string back. */
  lemma {:induction false} JoinSplit(s: string, sep: char)
    ensures Join(Split(s, sep), sep) == s
    decreases |s|
  {
    if |s| > 0 {
      JoinSplit(s[1..], sep);
      var rest := Split(s[1..], sep);
      if s[0] == sep {
        assert ([[]] + rest)[1..] == rest;
      } else if |rest| > 1 {
        assert ([[s[0]] + rest[0]] + rest[1..])[1..] == rest[1..];
      }
    }
  }

  // ---------------------------------------------------------------------------
  // Numbers
  // ---------------------------------------------------------------------------

  predicate IsDigit(c: char) {
    '0' <= c <= '9'
  }

  predicate AllDigits(s: string) {
    forall i :: 0 <= i < |s| ==> IsDigit(s[i])
  }

  function DigitChar(d: int): (c: char)
    requires 0 <= d < 10
    ensures IsDigit(c) && c as int - '0' as int == d
  {
    ('0' as int + d) as char
  }

  /** The decimal digits of a natural number, most significant first, without
      leading zeros. */
  function NatToString(n: nat): (r: string)
    ensures |r| >= 1 && AllDigits(r)
    ensures |r| > 1 ==> r[0] != '0'
  {
    if n < 10 then [DigitChar(n)] else NatToString(n / 10) + [DigitChar(n % 10)]
  }

  /** How a template string renders an integer: a minus sign, then the digits. */
  function IntToString(n: int): (r: string)
    ensures |r| >= 1
    ensures n >= 0 ==> AllDigits(r)
    ensures n < 0 ==> r[0] == '-' && AllDigits(r[1..])
  {
    if n < 0 then "-" + NatToString(-n) else NatToString(n)
  }

  /** The value of a string of decimal digits. */
  function DigitsValue(s: string): nat
    requires AllDigits(s)
  {
    if |s| == 0 then 0 else DigitsValue(s[..|s| - 1]) * 10 + (s[|s| - 1] as int - '0' as int)
  }

  /** The number of decimal digits at the start of `s`. */
  function LeadingDigits(s: string): (k: nat)
    ensures k <= |s| && AllDigits(s[..k])
    ensures k < |s| ==> !IsDigit(s[k])
  {
    if |s| > 0 && IsDigit(s[0]) then 1 + LeadingDigits(s[1..]) else 0
  }

  lemma {:induction false} LeadingDigitsOf(d: string, rest: string)
    requires AllDigits(d)
    requires rest == [] || !IsDigit(rest[0])
    ensures LeadingDigits(d + rest) == |d|
  {
    if |d| > 0 {
      assert (d + rest)[1..] == d[1..] + rest;
      LeadingDigitsOf(d[1..], rest);
    } else {
      assert d + rest == rest;
    }
  }

  /** Reading back the digits of a natural number gives the number. */
  lemma {:induction false} NatToStringValue(n: nat)
    ensures DigitsValue(NatToString(n)) == n
  {
    if n >= 10 {
      NatToStringValue(n / 10);
      var s := NatToString(n);
      assert s[..|s| - 1] == NatToString(n / 10);
    }
  }

  /** `parseInt(s, 10)`: leading white space skipped, an optional sign, then the
      longest run of decimal digits; `None` (NaN) when there is no digit. */
  function ParseInt(s: string): (r: Option<int>)
    ensures r.None? <==> LeadingDigits(Unsigned(TrimStart(s))) == 0
    ensures r.Some? && r.value < 0 ==> TrimStart(s)[0] == '-'
  {
    var t := TrimStart(s);
    var u := Unsigned(t);
    var k := LeadingDigits(u);
    if k == 0 then None
    else if |t| > 0 && t[0] == '-' then Some(0 - DigitsValue(u[..k]))
    else Some(DigitsValue(u[..k]))
  }

  /** The text after an optional leading sign. */
  function Unsigned(t: string): string {
    if |t| > 0 && (t[0] == '-' || t[0] == '+') then t[1..] else t
  }

  /** `parseInt` reads the leading run of digits and ignores whatever follows
      it: `"12 хв"` gives 12. */
  lemma ParseIntOfDigitsPrefix(d: string, rest: string)
    requires |d| >= 1 && AllDigits(d)
    requires rest == [] || !IsDigit(rest[0])
    ensures ParseInt(d + rest) == Some(DigitsValue(d))
  {
    var s := d + rest;
    assert s[0] == d[0];
    UnsignedOfDigit(s);
    LeadingDigitsOf(d, rest);
    assert s[..|d|] == d;
  }

  /** Text that starts with a digit has neither leading white space nor a sign. */
  lemma UnsignedOfDigit(s: string)
    requires |s| > 0 && IsDigit(s[0])
    ensures TrimStart(s) == s && Unsigned(s) == s
  {
    SpanStartUnique(s, 0);
  }

  /** `parseInt` reads back every integer a template string renders. */
  lemma ParseIntOfIntToString(n: int)
    ensures ParseInt(IntToString(n)) == Some(n)
  {
    var s := IntToString(n);
    var d := NatToString(if n < 0 then -n else n);
    assert TrimStart(s) == s;
    assert Unsigned(s) == d;
    LeadingDigitsOf(d, []);
    assert d + [] == d;
    assert d[..|d|] == d;
    NatToStringValue(if n < 0 then -n else n);
  }

  // ---------------------------------------------------------------------------
  // Line-wise maps
  // ---------------------------------------------------------------------------

  /** Every line trimmed. */
  function TrimAll(ls: seq<string>): seq<string> {
    MapAll(Trim, ls)
  }

  /** `f` applied to every line. */
  function MapAll(f: string -> string, ls: seq<string>): (r: seq<string>)
    ensures |r| == |ls|
    ensures forall i :: 0 <= i < |ls| ==> r[i] == f(ls[i])
  {
    if ls == [] then [] else [f(ls[0])] + MapAll(f, ls[1..])
  }

  lemma {:induction false} MapAllAppend(f: string -> string, a: seq<string>, b: seq<string>)
    ensures MapAll(f, a + b) == MapAll(f, a) + MapAll(f, b)
  {
    if a == [] {
      assert a + b == b;
    } else {
      assert (a + b)[1..] == a[1..] + b;
      MapAllAppend(f, a[1..], b);
    }
  }

  lemma TrimAllAppend(a: seq<string>, b: seq<string>)
    ensures TrimAll(a + b) == TrimAll(a) + TrimAll(b)
  {
    MapAllAppend(Trim, a, b);
  }

  lemma TrimEmpty()
    ensures Trim("") == ""
  { }

  /** `filter(Boolean)` on lines: the non-empty ones, in order. */
  function NonBlank(ls: seq<string>): (r: seq<string>)
    ensures |r| <= |ls|
    ensures forall i :: 0 <= i < |r| ==> r[i] != ""
  {
    if |ls| == 0 then []
    else NonBlank(ls[..|ls| - 1]) + (if ls[|ls| - 1] == "" then [] else [ls[|ls| - 1]])
  }

  lemma {:induction false} NonBlankAppend(a: seq<string>, b: seq<string>)
    ensures NonBlank(a + b) == NonBlank(a) + NonBlank(b)
    decreases |b|
  {
    if |b| == 0 {
      assert a + b == a;
    } else {
      var b' := b[..|b| - 1];
      assert (a + b)[..|a + b| - 1] == a + b';
      NonBlankAppend(a, b');
    }
  }

  lemma {:induction false} NonBlankOfNonBlank(ls: seq<string>)
    requires forall i :: 0 <= i < |ls| ==> ls[i] != ""
    ensures NonBlank(ls) == ls
    decreases |ls|
  {
    if |ls| > 0 {
      NonBlankOfNonBlank(ls[..|ls| - 1]);
      assert ls[..|ls| - 1] + [ls[|ls| - 1]] == ls;
    }
  }

  /** A line survives the filter exactly when it is non-empty. */
  lemma {:induction false} NonBlankMembers(ls: seq<string>)
    ensures forall x :: x in NonBlank(ls) <==> x in ls && x != ""
    decreases |ls|
  {
    if |ls| > 0 {
      NonBlankMembers(ls[..|ls| - 1]);
      assert ls == ls[..|ls| - 1] + [ls[|ls| - 1]];
    }
  }
}
