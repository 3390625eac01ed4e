/**
 * The handful of Python string operations the pipeline relies on:
 * `str.isspace`, `strip`/`rstrip`, `split("\n")`, `"\n".join`, `in`,
 * `startswith`, `replace` of one character and `str(n)` for a natural number.
 * Strings are sequences of Unicode code points, as in Python 3.
 */
module Text {

  /** Python's `str.isspace()`, which is also what `\s` matches in a `str` pattern. */
  predicate IsSpace(c: char)
  {
    c == ' ' || ('\t' <= c <= '\r') || ('\U{1c}' <= c <= '\U{1f}') || c == '\U{85}' || c == '\U{a0}'
    || c == '\U{1680}' || ('\U{2000}' <= c <= '\U{200a}') || c == '\U{2028}' || c == '\U{2029}'
    || c == '\U{202f}' || c == '\U{205f}' || c == '\U{3000}'
  }

  /** An ASCII digit, as `str(n)` and `isoformat()` write them. */
  predicate IsDigit(c: char)
  {
    '0' <= c <= '9'
  }

  /** The number of ranges of the Unicode category Nd in Unicode 15.0. */
  const DecimalRangeCount: nat := 64

  /** The `j`-th range of the Unicode category Nd in Unicode 15.0, in increasing order. */
  function DecimalRange(j: nat): (char, char)
    requires j < DecimalRangeCount
  {
    match j
    case 0 => ('0', '9')
    case 1 => ('\U{660}', '\U{669}')
    case 2 => ('\U{6f0}', '\U{6f9}')
    case 3 => ('\U{7c0}', '\U{7c9}')
    case 4 => ('\U{966}', '\U{96f}')
    case 5 => ('\U{9e6}', '\U{9ef}')
    case 6 => ('\U{a66}', '\U{a6f}')
    case 7 => ('\U{ae6}', '\U{aef}')
    case 8 => ('\U{b66}', '\U{b6f}')
    case 9 => ('\U{be6}', '\U{bef}')
    case 10 => ('\U{c66}', '\U{c6f}')
    case 11 => ('\U{ce6}', '\U{cef}')
    case 12 => ('\U{d66}', '\U{d6f}')
    case 13 => ('\U{de6}', '\U{def}')
    case 14 => ('\U{e50}', '\U{e59}')
    case 15 => ('\U{ed0}', '\U{ed9}')
    case 16 => ('\U{f20}', '\U{f29}')
    case 17 => ('\U{1040}', '\U{1049}')
    case 18 => ('\U{1090}', '\U{1099}')
    case 19 => ('\U{17e0}', '\U{17e9}')
    case 20 => ('\U{1810}', '\U{1819}')
    case 21 => ('\U{1946}', '\U{194f}')
    case 22 => ('\U{19d0}', '\U{19d9}')
    case 23 => ('\U{1a80}', '\U{1a89}')
    case 24 => ('\U{1a90}', '\U{1a99}')
    case 25 => ('\U{1b50}', '\U{1b59}')
    case 26 => ('\U{1bb0}', '\U{1bb9}')
    case 27 => ('\U{1c40}', '\U{1c49}')
    case 28 => ('\U{1c50}', '\U{1c59}')
    case 29 => ('\U{a620}', '\U{a629}')
    case 30 => ('\U{a8d0}', '\U{a8d9}')
    case 31 => ('\U{a900}', '\U{a909}')
    case 32 => ('\U{a9d0}', '\U{a9d9}')
    case 33 => ('\U{a9f0}', '\U{a9f9}')
    case 34 => ('\U{aa50}', '\U{aa59}')
    case 35 => ('\U{abf0}', '\U{abf9}')
    case 36 => ('\U{ff10}', '\U{ff19}')
    case 37 => ('\U{104a0}', '\U{104a9}')
    case 38 => ('\U{10d30}', '\U{10d39}')
    case 39 => ('\U{11066}', '\U{1106f}')
    case 40 => ('\U{110f0}', '\U{110f9}')
    case 41 => ('\U{11136}', '\U{1113f}')
    case 42 => ('\U{111d0}', '\U{111d9}')
    case 43 => ('\U{112f0}', '\U{112f9}')
    case 44 => ('\U{11450}', '\U{11459}')
    case 45 => ('\U{114d0}', '\U{114d9}')
    case 46 => ('\U{11650}', '\U{11659}')
    case 47 => ('\U{116c0}', '\U{116c9}')
    case 48 => ('\U{11730}', '\U{11739}')
    case 49 => ('\U{118e0}', '\U{118e9}')
    case 50 => ('\U{11950}', '\U{11959}')
    case 51 => ('\U{11c50}', '\U{11c59}')
    case 52 => ('\U{11d50}', '\U{11d59}')
    case 53 => ('\U{11da0}', '\U{11da9}')
    case 54 => ('\U{11f50}', '\U{11f59}')
    case 55 => ('\U{16a60}', '\U{16a69}')
    case 56 => ('\U{16ac0}', '\U{16ac9}')
    case 57 => ('\U{16b50}', '\U{16b59}')
    case 58 => ('\U{1d7ce}', '\U{1d7ff}')
    case 59 => ('\U{1e140}', '\U{1e149}')
    case 60 => ('\U{1e2f0}', '\U{1e2f9}')
    case 61 => ('\U{1e4f0}', '\U{1e4f9}')
    case 62 => ('\U{1e950}', '\U{1e959}')
    case _ => ('\U{1fbf0}', '\U{1fbf9}')
  }

  /** `c` lies in the `j`-th range of the table. */
  predicate InDecimalRange(c: char, j: nat)
    requires j < DecimalRangeCount
  {
    DecimalRange(j).0 <= c <= DecimalRange(j).1
  }

  /** What `\d` matches in a `str` pattern: a character of the Unicode category Nd (`str.isdecimal()`). */
  predicate IsDecimal(c: char)
  {
    exists j :: 0 <= j < DecimalRangeCount && InDecimalRange(c, j)
  }

  /** An ASCII digit is a decimal digit. */
  lemma AsciiDigitIsDecimal(c: char)
    requires IsDigit(c)
    ensures IsDecimal(c)
  {
    assert InDecimalRange(c, 0);
  }

  predicate AllSpace(s: string)
  {
    forall i :: 0 <= i < |s| ==> IsSpace(s[i])
  }

  /** Length of the run of whitespace starting at `i`. */
  function SpaceRun(t: string, i: nat): (k: nat)
    requires i <= |t|
    ensures i + k <= |t|
    ensures forall j :: i <= j < i + k ==> IsSpace(t[j])
    ensures i + k < |t| ==> !IsSpace(t[i + k])
    decreases |t| - i
  {
    if i < |t| && IsSpace(t[i]) then 1 + SpaceRun(t, i + 1) else 0
  }

  /** A single whitespace character at `i`. */
  lemma SingleSpace(t: string, i: nat)
    requires i + 1 < |t| && IsSpace(t[i]) && !IsSpace(t[i + 1])
    ensures SpaceRun(t, i) == 1
  {
    assert SpaceRun(t, i + 1) == 0;
  }

  /** Length of the run of whitespace ending just before `j`. */
  function SpaceRunBack(t: string, j: nat): (k: nat)
    requires j <= |t|
    ensures k <= j
    ensures forall i :: j - k <= i < j ==> IsSpace(t[i])
    ensures k < j ==> !IsSpace(t[j - k - 1])
  {
    if j > 0 && IsSpace(t[j - 1]) then 1 + SpaceRunBack(t, j - 1) else 0
  }

  /** `s.rstrip()` */
  function RStrip(s: string): (r: string)
    ensures |r| <= |s| && r == s[..|r|]
    ensures r == [] || !IsSpace(r[|r| - 1])
    ensures AllSpace(s[|r|..])
  {
    s[..|s| - SpaceRunBack(s, |s|)]
  }

  /** `s.lstrip()` */
  function LStrip(s: string): (r: string)
    ensures |r| <= |s| && r == s[|s| - |r|..]
    ensures r == [] || !IsSpace(r[0])
    ensures AllSpace(s[..|s| - |r|])
  {
    s[SpaceRun(s, 0)..]
  }

  /** `s.strip()`: `s` without its leading and trailing whitespace. */
  function Strip(s: string): (r: string)
    ensures |r| <= |s|
    ensures r == [] || (!IsSpace(r[0]) && !IsSpace(r[|r| - 1]))
  {
    LStrip(RStrip(s))
  }

  /** `sep.join(parts)` */
  function Join(sep: string, parts: seq<string>): (r: string)
    ensures parts == [] ==> r == []
    ensures |parts| == 1 ==> r == parts[0]
  {
    if parts == [] then []
    else if |parts| == 1 then parts[0]
    else parts[0] + sep + Join(sep, parts[1..])
  }

  lemma {:induction false} JoinAppend(sep: string, parts: seq<string>, last: string)
    requires parts != []
    ensures Join(sep, parts + [last]) == Join(sep, parts) + sep + last
  {
    if |parts| == 1 {
      assert parts + [last] == [parts[0], last];
    } else {
      assert (parts + [last])[1..] == parts[1..] + [last];
      JoinAppend(sep, parts[1..], last);
    }
  }

  /** `s.split(sep)` for a one-character separator: never empty, one more piece than separators. */
  function Split(s: string, sep: char): (r: seq<string>)
    ensures |r| >= 1
    ensures forall k :: 0 <= k < |r| ==> sep !in r[k]
  {
    if sep !in s then [s]
    else
      var i := IndexOf(s, sep);
      [s[..i]] + Split(s[i + 1..], sep)
  }

  /** Position of the first `c` in `s`. */
  function IndexOf(s: string, c: char): (i: nat)
    requires c in s
    ensures i < |s| && s[i] == c && c !in s[..i]
  {
    if s[0] == c then 0 else 1 + IndexOf(s[1..], c)
  }

  /** Splitting at the first separator: the piece before it, then the split of the rest. */
  lemma {:induction false} SplitCons(a: string, b: string, sep: char)
    requires sep !in a
    ensures Split(a + [sep] + b, sep) == [a] + Split(b, sep)
  {
    var s := a + [sep] + b;
    assert s[|a|] == sep;
    IndexOfAfter(a, b, sep);
    assert s[..|a|] == a && s[|a| + 1..] == b;
  }

  lemma {:induction false} IndexOfAfter(a: string, b: string, c: char)
    requires c !in a
    ensures c in a + [c] + b && IndexOf(a + [c] + b, c) == |a|
  {
    var s := a + [c] + b;
    assert s[|a|] == c;
    if a != [] {
      assert s[0] == a[0];
      assert s[1..] == a[1..] + [c] + b;
      IndexOfAfter(a[1..], b, c);
    }
  }

  /** `sep.join(s.split(sep)) == s`: splitting loses nothing. */
  lemma {:induction false} JoinSplit(s: string, sep: char)
    ensures Join([sep], Split(s, sep)) == s
  {
    if sep in s {
      var i := IndexOf(s, sep);
      var parts := Split(s, sep);
      assert parts == [s[..i]] + Split(s[i + 1..], sep);
      assert parts[1..] == Split(s[i + 1..], sep);
      JoinSplit(s[i + 1..], sep);
      assert Join([sep], parts) == s[..i] + [sep] + Join([sep], parts[1..]);
      assert s == s[..i] + [sep] + s[i + 1..];
    }
  }

  predicate StartsWith(s: string, prefix: string)
  {
    |prefix| <= |s| && s[..|prefix|] == prefix
  }

  /** `sub in s` */
  predicate Contains(s: string, sub: string)
  {
    exists i :: 0 <= i <= |s| - |sub| && OccursAt(s, sub, i)
  }

  /** `sub` occurs in `s` starting at position `i`. */
  predicate OccursAt(s: string, sub: string, i: int)
  {
    0 <= i && i + |sub| <= |s| && s[i..i + |sub|] == sub
  }

  /** `s.replace(a, b)` for single characters. */
  function ReplaceChar(s: string, a: char, b: char): (r: string)
    ensures |r| == |s|
    ensures forall i :: 0 <= i < |s| ==> r[i] == if s[i] == a then b else s[i]
  {
    if s == [] then [] else [if s[0] == a then b else s[0]] + ReplaceChar(s[1..], a, b)
  }

  /** ASCII lower-casing, one step of the case fold. */
  function LowerAscii(c: char): char
  {
    if 'A' <= c <= 'Z' then (c as int + 32) as char else c
  }

  /** `str(n)` for a natural number. */
  function NatToString(n: nat): (r: string)
    ensures |r| >= 1
    ensures forall i :: 0 <= i < |r| ==> IsDigit(r[i])
    decreases n
  {
    if n < 10 then [Digit(n)] else NatToString(n / 10) + [Digit(n % 10)]
  }

  function Digit(d: nat): (c: char)
    requires d < 10
    ensures IsDigit(c)
  {
    ('0' as int + d) as char
  }

  /** Zero-padded decimal of exactly `width` digits (the `%02d` / `%04d` used by datetime). */
  function PadNat(n: nat, width: nat): (r: string)
    ensures |r| == width
    ensures forall i :: 0 <= i < |r| ==> IsDigit(r[i])
    decreases width
  {
    if width == 0 then [] else PadNat(n / 10, width - 1) + [Digit(n % 10)]
  }
}
