/**
 * String operations of Python and JavaScript that the modelled code relies on:
 * `str.strip(chars)`, `str.split(sep)`, `str(n)`, `int(digits)`, substring tests and
 * ASCII lower-casing.
 */
module Text {

  /** The characters Python's `str.isspace()` accepts, which `str.strip()` removes. */
  const Whitespace: set<char> := {
    '\t', '\n', '\U{000B}', '\U{000C}', '\r', '\U{001C}', '\U{001D}', '\U{001E}', '\U{001F}', ' ',
    '\U{0085}', '\U{00A0}', '\U{1680}', '\U{2000}', '\U{2001}', '\U{2002}', '\U{2003}', '\U{2004}',
    '\U{2005}', '\U{2006}', '\U{2007}', '\U{2008}', '\U{2009}', '\U{200A}', '\U{2028}', '\U{2029}',
    '\U{202F}', '\U{205F}', '\U{3000}'}

  /** Removes the leading characters that belong to `cs`. */
  function LStrip(s: string, cs: set<char>): (r: string)
    ensures |r| <= |s| && r == s[|s| - |r|..]
    ensures forall k :: 0 <= k < |s| - |r| ==> s[k] in cs
    ensures r != [] ==> r[0] !in cs
    decreases |s|
  {
    if s != [] && s[0] in cs then LStrip(s[1..], cs) else s
  }

  /** Removes the trailing characters that belong to `cs`. */
  function RStrip(s: string, cs: set<char>): (r: string)
    ensures |r| <= |s| && r == s[..|r|]
    ensures forall k :: |r| <= k < |s| ==> s[k] in cs
    ensures r != [] ==> r[|r| - 1] !in cs
    decreases |s|
  {
    if s != [] && s[|s| - 1] in cs then RStrip(s[..|s| - 1], cs) else s
  }

  /**
   * Python's `s.strip(chars)`: `chars` is a SET of characters, removed from both ends
   * (so `"```json"` strips any run of backticks and of the letters j, s, o, n).
   */
  function Strip(s: string, cs: set<char>): (r: string)
    ensures |r| <= |s|
    ensures r != [] ==> r[0] !in cs && r[|r| - 1] !in cs
    ensures r == [] <==> forall k :: 0 <= k < |s| ==> s[k] in cs
  {
    var l := LStrip(s, cs);
    assert forall k :: 0 <= k < |l| ==> l[k] == s[|s| - |l| + k];
    RStrip(l, cs)
  }

  /** A string whose ends lie outside `cs` is left as it is by `Strip`. */
  lemma StripFixedPoint(s: string, cs: set<char>)
    requires s != [] ==> s[0] !in cs && s[|s| - 1] !in cs
    ensures Strip(s, cs) == s
  {
  }

  /** Stripping twice with the same set strips nothing more. */
  lemma StripIdempotent(s: string, cs: set<char>)
    ensures Strip(Strip(s, cs), cs) == Strip(s, cs)
  {
    StripFixedPoint(Strip(s, cs), cs);
  }

  /**
   * A second strip with a subset of the first set changes nothing:
   * `s.strip(A).strip(B) == s.strip(A)` whenever `B <= A`.
   */
  lemma StripSubsetAbsorbed(s: string, a: set<char>, b: set<char>)
    requires b <= a
    ensures Strip(Strip(s, a), b) == Strip(s, a)
  {
    StripFixedPoint(Strip(s, a), b);
  }

  /** A prefix made of `cs` characters in front of a string that starts outside `cs` is stripped exactly. */
  lemma {:induction false} LStripPrefix(p: string, t: string, cs: set<char>)
    requires forall k :: 0 <= k < |p| ==> p[k] in cs
    requires t != [] ==> t[0] !in cs
    ensures LStrip(p + t, cs) == t
    decreases |p|
  {
    if p != [] {
      assert (p + t)[1..] == p[1..] + t;
      LStripPrefix(p[1..], t, cs);
    } else {
      assert p + t == t;
    }
  }

  /** A suffix made of `cs` characters behind a string that ends outside `cs` is stripped exactly. */
  lemma {:induction false} RStripSuffix(t: string, q: string, cs: set<char>)
    requires forall k :: 0 <= k < |q| ==> q[k] in cs
    requires t != [] ==> t[|t| - 1] !in cs
    ensures RStrip(t + q, cs) == t
    decreases |q|
  {
    if q != [] {
      assert (t + q)[..|t + q| - 1] == t + q[..|q| - 1];
      RStripSuffix(t, q[..|q| - 1], cs);
    } else {
      assert t + q == t;
    }
  }

  /** Stripping `p + t + q`, with `p` and `q` made of `cs` characters and `t` not starting or ending with one, gives `t`. */
  lemma StripFrame(p: string, t: string, q: string, cs: set<char>)
    requires forall k :: 0 <= k < |p| ==> p[k] in cs
    requires forall k :: 0 <= k < |q| ==> q[k] in cs
    requires t != [] ==> t[0] !in cs && t[|t| - 1] !in cs
    ensures Strip(p + t + q, cs) == t
  {
    if t == [] {
      assert p + t + q == p + q;
      var s := p + q;
      assert forall k :: 0 <= k < |s| ==> s[k] in cs by {
        forall k | 0 <= k < |s| ensures s[k] in cs {
          if k < |p| { assert s[k] == p[k]; } else { assert s[k] == q[k - |p|]; }
        }
      }
    } else {
      assert p + t + q == p + (t + q);
      LStripPrefix(p, t + q, cs);
      RStripSuffix(t, q, cs);
    }
  }

  /** Python's whitespace strip, `str.strip()`. */
  function Trim(s: string): string
  {
    Strip(s, Whitespace)
  }

  /** The white space of JavaScript's `\s` and of `String.prototype.trim`. */
  const JsSpace: set<char> := {
    '\t', '\n', '\U{000B}', '\U{000C}', '\r', ' ', '\U{00A0}', '\U{1680}',
    '\U{2000}', '\U{2001}', '\U{2002}', '\U{2003}', '\U{2004}', '\U{2005}', '\U{2006}',
    '\U{2007}', '\U{2008}', '\U{2009}', '\U{200A}', '\U{2028}', '\U{2029}', '\U{202F}',
    '\U{205F}', '\U{3000}', '\U{FEFF}'}

  /** `String.prototype.trim`. */
  function JsTrim(s: string): string
  {
    Strip(s, JsSpace)
  }

  /** A string with a character outside white space is not blank. */
  lemma NotBlank(s: string, k: nat)
    requires k < |s| && s[k] !in JsSpace
    ensures JsTrim(s) != []
  {
  }

  /** The characters of a string literal, as the set `str.strip` receives. */
  function CharSet(s: string): (r: set<char>)
    ensures forall c :: c in r <==> c in s
  {
    set c | c in s
  }

  /** Index of the first occurrence of `c`. */
  function IndexOf(s: string, c: char): (i: nat)
    requires c in s
    ensures i < |s| && s[i] == c && c !in s[..i]
  {
    if s[0] == c then 0 else 1 + IndexOf(s[1..], c)
  }

  /** The inverse of `Split`: the parts joined with the separator between them. */
  function Join(parts: seq<string>, sep: char): string
    requires |parts| >= 1
  {
    if |parts| == 1 then parts[0] else parts[0] + [sep] + Join(parts[1..], sep)
  }

  /** Python's `s.split(sep)` for a one-character separator; empty parts are kept. */
  function Split(s: string, sep: char): (r: seq<string>)
    ensures |r| >= 1
    ensures forall i :: 0 <= i < |r| ==> sep !in r[i]
    ensures Join(r, sep) == s
    decreases |s|
  {
    if sep in s then
      var i := IndexOf(s, sep);
      var rest := Split(s[i + 1..], sep);
      assert s == s[..i] + [sep] + s[i + 1..];
      [s[..i]] + rest
    else
      [s]
  }

  /** Splitting the join of separator-free parts gives the parts back. */
  lemma {:induction false} SplitJoin(parts: seq<string>, sep: char)
    requires |parts| >= 1
    requires forall i :: 0 <= i < |parts| ==> sep !in parts[i]
    ensures Split(Join(parts, sep), sep) == parts
    decreases |parts|
  {
    if |parts| == 1 {
      assert Join(parts, sep) == parts[0];
    } else {
      var s := Join(parts, sep);
      var tail := Join(parts[1..], sep);
      assert s == parts[0] + [sep] + tail;
      IndexOfAfterPrefix(parts[0], sep, tail);
      var i := IndexOf(s, sep);
      assert s[..i] == parts[0];
      assert s[i + 1..] == tail;
      SplitJoin(parts[1..], sep);
      assert [parts[0]] + parts[1..] == parts;
    }
  }

  /** The first separator of `p + [sep] + t` is the one after `p` when `p` has none. */
  lemma {:induction false} IndexOfAfterPrefix(p: string, sep: char, t: string)
    requires sep !in p
    ensures sep in p + [sep] + t && IndexOf(p + [sep] + t, sep) == |p|
    decreases |p|
  {
    var s := p + [sep] + t;
    assert s[|p|] == sep;
    if p != [] {
      assert s[1..] == p[1..] + [sep] + t;
      IndexOfAfterPrefix(p[1..], sep, t);
    }
  }

  /** A string with no separator splits to itself alone. */
  lemma SplitNoSeparator(s: string, sep: char)
    requires sep !in s
    ensures Split(s, sep) == [s]
  {
  }

  predicate IsDigit(c: char)
  {
    '0' <= c <= '9'
  }

  function DigitChar(d: nat): (c: char)
    requires d < 10
    ensures IsDigit(c)
  {
    ['0', '1', '2', '3', '4', '5', '6', '7', '8', '9'][d]
  }

  function DigitValue(c: char): (d: nat)
    requires IsDigit(c)
    ensures d < 10
  {
    (c as int - '0' as int) as nat
  }

  /** Python's `str(n)` for a non-negative integer: decimal digits, no leading zero. */
  function NatToString(n: nat): (r: string)
    ensures |r| >= 1
    ensures forall i :: 0 <= i < |r| ==> IsDigit(r[i])
    ensures |r| > 1 ==> r[0] != '0'
    decreases n
  {
    if n < 10 then [DigitChar(n)] else NatToString(n / 10) + [DigitChar(n % 10)]
  }

  /** Python's `int(s)` for a string of decimal digits (leading zeros allowed). */
  function ParseDigits(s: string): nat
    requires forall i :: 0 <= i < |s| ==> IsDigit(s[i])
    decreases |s|
  {
    if s == [] then 0 else 10 * ParseDigits(s[..|s| - 1]) + DigitValue(s[|s| - 1])
  }

  /** `int(str(n)) == n`. */
  lemma {:induction false} ParseNatToString(n: nat)
    ensures ParseDigits(NatToString(n)) == n
    decreases n
  {
    if n >= 10 {
      var s := NatToString(n);
      assert s[..|s| - 1] == NatToString(n / 10);
      ParseNatToString(n / 10);
    } else {
      assert NatToString(n) == [DigitChar(n)];
      assert DigitValue(DigitChar(n)) == n;
    }
  }

  /** Names numbered with `str(i)` after a common prefix differ for different numbers. */
  lemma NumberedNamesDistinct(prefix: string, i: nat, j: nat)
    requires i != j
    ensures prefix + NatToString(i) != prefix + NatToString(j)
  {
    if prefix + NatToString(i) == prefix + NatToString(j) {
      assert (prefix + NatToString(i))[|prefix|..] == NatToString(i);
      assert (prefix + NatToString(j))[|prefix|..] == NatToString(j);
      ParseNatToString(i);
      ParseNatToString(j);
    }
  }

  /** `sub in s` for strings. */
  predicate Contains(s: string, sub: string)
  {
    exists i :: 0 <= i <= |s| && sub <= s[i..]
  }

  /** `str.lower()` restricted to ASCII letters. */
  function Lower(s: string): (r: string)
    ensures |r| == |s|
    ensures forall i :: 0 <= i < |s| ==> r[i] == (if 'A' <= s[i] <= 'Z' then (s[i] as int + 32) as char else s[i])
  {
    seq(|s|, i requires 0 <= i < |s| => if 'A' <= s[i] <= 'Z' then (s[i] as int + 32) as char else s[i])
  }

  /** `str.upper()` restricted to ASCII letters. */
  function Upper(s: string): (r: string)
    ensures |r| == |s|
    ensures forall i :: 0 <= i < |s| ==> r[i] == (if 'a' <= s[i] <= 'z' then (s[i] as int - 32) as char else s[i])
  {
    seq(|s|, i requires 0 <= i < |s| => if 'a' <= s[i] <= 'z' then (s[i] as int - 32) as char else s[i])
  }
}
