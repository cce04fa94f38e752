/** The pieces of Python's string and path library that the library model relies on:
    slicing, `str.replace`, `str.join`, `int()`, `os.path.dirname`/`basename`, and
    the ordering Python uses to compare strings. */
module PyStrings {
  import opened Common

  // ---------------------------------------------------------------- slicing

  /** `s[:-n]`: all but the last `n` characters, or "" when `s` is shorter. */
  function DropLast(s: string, n: nat): string
  {
    if |s| >= n then s[..|s| - n] else ""
  }

  /** `s[lo:hi]` for non-negative bounds: Python clamps both bounds to the length. */
  function Slice(s: string, lo: nat, hi: nat): string
  {
    var h := if hi < |s| then hi else |s|;
    var l := if lo < h then lo else h;
    s[l..h]
  }

  // ---------------------------------------------------------------- str.replace

  /** `s.replace(pat, rep)`: scans left to right and replaces every non-overlapping
      occurrence of the non-empty `pat`. */
  function Replace(s: string, pat: string, rep: string): string
    requires pat != ""
    decreases |s|
  {
    if |s| < |pat| then s
    else if s[..|pat|] == pat then rep + Replace(s[|pat|..], pat, rep)
    else [s[0]] + Replace(s[1..], pat, rep)
  }

  /** Reference definition of a one-character replacement: every `c` becomes `rep`,
      every other character stays. */
  function ReplaceChar(s: string, c: char, rep: string): (r: string)
    ensures c !in rep ==> c !in r
  {
    if s == [] then [] else (if s[0] == c then rep else [s[0]]) + ReplaceChar(s[1..], c, rep)
  }

  /** `str.replace` with a one-character pattern is the character-wise substitution. */
  lemma {:induction false} ReplaceOneChar(s: string, c: char, rep: string)
    ensures Replace(s, [c], rep) == ReplaceChar(s, c, rep)
  {
    if s != [] {
      ReplaceOneChar(s[1..], c, rep);
      assert s[..1] == [s[0]];
    }
  }

  lemma {:induction false} ReplaceCharAppend(a: string, b: string, c: char, rep: string)
    ensures ReplaceChar(a + b, c, rep) == ReplaceChar(a, c, rep) + ReplaceChar(b, c, rep)
  {
    if a == [] {
      assert a + b == b;
    } else {
      assert (a + b)[1..] == a[1..] + b;
      ReplaceCharAppend(a[1..], b, c, rep);
    }
  }

  /** A replacement whose pattern does not occur leaves the text as it is. */
  lemma {:induction false} ReplaceCharAbsent(s: string, c: char, rep: string)
    requires c !in s
    ensures ReplaceChar(s, c, rep) == s
  {
    if s != [] {
      ReplaceCharAbsent(s[1..], c, rep);
    }
  }

  /** A prefix that cannot start a match is copied unchanged. */
  lemma {:induction false} ReplaceSkip(a: string, x: string, pat: string, rep: string)
    requires pat != "" && pat[0] !in a
    ensures Replace(a + x, pat, rep) == a + Replace(x, pat, rep)
  {
    if a != [] {
      var s := a + x;
      if |s| < |pat| {
        // nothing matches anywhere; both sides copy the text
        ReplaceShort(x, pat, rep);
        assert Replace(s, pat, rep) == s;
      } else {
        assert s[..|pat|][0] == a[0];
        assert s[..|pat|] != pat;
        assert s[1..] == a[1..] + x;
        assert Replace(s, pat, rep) == [s[0]] + Replace(s[1..], pat, rep);
        ReplaceSkip(a[1..], x, pat, rep);
        assert s[0] == a[0];
        calc {
          Replace(s, pat, rep);
          [a[0]] + (a[1..] + Replace(x, pat, rep));
          ([a[0]] + a[1..]) + Replace(x, pat, rep);
          { assert [a[0]] + a[1..] == a; }
          a + Replace(x, pat, rep);
        }
      }
    } else {
      assert a + x == x;
    }
  }

  /** Where the pattern does not start, the first character is copied. */
  lemma ReplaceNoMatch(s: string, pat: string, rep: string)
    requires pat != "" && s != [] && (|s| < |pat| || s[..|pat|] != pat)
    ensures Replace(s, pat, rep) == [s[0]] + Replace(s[1..], pat, rep)
  {
    if |s| < |pat| {
      ReplaceShort(s, pat, rep);
      ReplaceShort(s[1..], pat, rep);
      assert s == [s[0]] + s[1..];
    }
  }

  /** Where the pattern starts, it is replaced and the scan goes on after it. */
  lemma ReplaceMatch(p: string, x: string, rep: string)
    requires p != ""
    ensures Replace(p + x, p, rep) == rep + Replace(x, p, rep)
  {
    assert (p + x)[..|p|] == p && (p + x)[|p|..] == x;
  }

  lemma ReplaceShort(x: string, pat: string, rep: string)
    requires pat != "" && |x| < |pat|
    ensures Replace(x, pat, rep) == x
  {
  }

  // ---------------------------------------------------------------- str.join

  /** `sep.join(parts)`. */
  function Join(parts: seq<string>, sep: string): string
  {
    if |parts| == 0 then ""
    else if |parts| == 1 then parts[0]
    else parts[0] + sep + Join(parts[1..], sep)
  }

  // ---------------------------------------------------------------- comparison

  /** Python's `<=` on strings: lexicographic by code point, a prefix sorts first. */
  predicate LexLe(a: string, b: string)
  {
    a == [] || (b != [] && (a[0] < b[0] || (a[0] == b[0] && LexLe(a[1..], b[1..]))))
  }

  lemma {:induction false} LexLeTotal(a: string, b: string)
    ensures LexLe(a, b) || LexLe(b, a)
  {
    if a != [] && b != [] && a[0] == b[0] {
      LexLeTotal(a[1..], b[1..]);
    }
  }

  lemma {:induction false} LexLeTransitive(a: string, b: string, c: string)
    requires LexLe(a, b) && LexLe(b, c)
    ensures LexLe(a, c)
  {
    if a != [] && b != [] && c != [] && a[0] == b[0] && b[0] == c[0] {
      LexLeTransitive(a[1..], b[1..], c[1..]);
    }
  }

  lemma {:induction false} LexLeAntisymmetric(a: string, b: string)
    requires LexLe(a, b) && LexLe(b, a)
    ensures a == b
  {
    if a != [] && b != [] {
      LexLeAntisymmetric(a[1..], b[1..]);
      assert a == [a[0]] + a[1..] && b == [b[0]] + b[1..];
    }
  }

  // ---------------------------------------------------------------- os.path

  /** `p.rfind('/')`: the index of the last slash, -1 when there is none. */
  function LastSlash(p: string): (i: int)
    ensures -1 <= i < |p|
    ensures i >= 0 ==> p[i] == '/'
    ensures forall j :: i < j < |p| ==> p[j] != '/'
  {
    if p == [] then -1
    else if p[|p| - 1] == '/' then |p| - 1
    else LastSlash(p[..|p| - 1])
  }

  predicate AllSlashes(s: string)
  {
    forall i :: 0 <= i < |s| ==> s[i] == '/'
  }

  /** `s.rstrip('/')`. */
  function RStripSlashes(s: string): (r: string)
    ensures |r| <= |s| && r == s[..|r|]
    ensures r == [] || r[|r| - 1] != '/'
    ensures s != [] && s[|s| - 1] == '/' ==> |r| < |s|
  {
    if s != [] && s[|s| - 1] == '/' then RStripSlashes(s[..|s| - 1]) else s
  }

  /** `os.path.dirname(p)` of POSIX Python: the text up to the last slash, with the
      trailing slashes removed unless it consists of slashes only. */
  function Dirname(p: string): (r: string)
    ensures |r| <= |p| && r == p[..|r|]
  {
    var head := p[..LastSlash(p) + 1];
    if head != [] && !AllSlashes(head) then RStripSlashes(head) else head
  }

  /** `os.path.basename(p)`: the text after the last slash. */
  function Basename(p: string): string
  {
    p[LastSlash(p) + 1..]
  }

  /** `dirname` leaves a path unchanged exactly when the path is empty or all slashes,
      which is where the recursion of the folder derivation stops. */
  lemma DirnameFixpoint(p: string)
    ensures Dirname(p) == p <==> AllSlashes(p)
  {
    var i := LastSlash(p);
    var head := p[..i + 1];
    if AllSlashes(p) {
      if p != [] {
        assert i == |p| - 1;
        assert head == p;
      }
    } else if head != [] && !AllSlashes(head) {
      assert head[|head| - 1] == '/';
    } else {
      assert head != p;
    }
  }

  /** `s.split('.')[0]`: the text before the first dot. */
  function UpToFirstDot(s: string): (r: string)
    ensures |r| <= |s| && r == s[..|r|] && '.' !in r
  {
    if s == [] || s[0] == '.' then [] else [s[0]] + UpToFirstDot(s[1..])
  }

  // ---------------------------------------------------------------- int() and "%d"

  /** The characters `int()` and `str.strip()` skip around a number. */
  predicate IsSpace(c: char)
  {
    c == ' ' || c == '\t' || c == '\n' || c == '\r' || c as int == 11 || c as int == 12
  }

  function LStrip(s: string): (r: string)
    ensures r == [] || !IsSpace(r[0])
  {
    if s != [] && IsSpace(s[0]) then LStrip(s[1..]) else s
  }

  function RStrip(s: string): (r: string)
    ensures r == [] || !IsSpace(r[|r| - 1])
  {
    if s != [] && IsSpace(s[|s| - 1]) then RStrip(s[..|s| - 1]) else s
  }

  predicate IsDigit(c: char) { '0' <= c <= '9' }

  predicate AllDigits(s: string) { forall i :: 0 <= i < |s| ==> IsDigit(s[i]) }

  function DigitValue(c: char): nat
    requires IsDigit(c)
  {
    c as int - '0' as int
  }

  /** The value of a run of decimal digits, most significant first. */
  function DigitsValue(s: string): nat
    requires AllDigits(s)
  {
    if s == [] then 0 else DigitsValue(s[..|s| - 1]) * 10 + DigitValue(s[|s| - 1])
  }

  /** `int(s)` on a byte string in base 10: whitespace, an optional sign, more
      whitespace (the sign is read before the digits' own whitespace is skipped), one or
      more decimal digits, then trailing whitespace; anything else raises ValueError. */
  function ParseInt(s: string): (r: Result<int>)
    ensures r.Err? ==> r.error == ValueError(s)
  {
    match ReadNumber(LStrip(RStrip(s)))
    case Some(v) => Ok(v)
    case None => Err(ValueError(s))
  }

  /** The number a text without surrounding whitespace spells, if it spells one. */
  function ReadNumber(t: string): Option<int>
  {
    var neg := t != [] && t[0] == '-';
    var digits := if t != [] && (t[0] == '-' || t[0] == '+') then LStrip(t[1..]) else t;
    if digits != [] && AllDigits(digits) then
      var v: int := DigitsValue(digits);
      Some(if neg then -v else v)
    else
      None
  }

  predicate AllSpaces(w: string)
  {
    forall i :: 0 <= i < |w| ==> IsSpace(w[i])
  }

  lemma {:induction false} LStripSpaces(w: string, x: string)
    requires AllSpaces(w) && (x == [] || !IsSpace(x[0]))
    ensures LStrip(w + x) == x
  {
    if w != [] {
      assert (w + x)[1..] == w[1..] + x;
      LStripSpaces(w[1..], x);
    } else {
      assert w + x == x;
    }
  }

  lemma {:induction false} RStripSpaces(x: string, w: string)
    requires AllSpaces(w) && (x == [] || !IsSpace(x[|x| - 1]))
    ensures RStrip(x + w) == x
  {
    if w != [] {
      assert (x + w)[..|x + w| - 1] == x + w[..|w| - 1];
      RStripSpaces(x, w[..|w| - 1]);
    } else {
      assert x + w == x;
    }
  }

  function DigitChar(d: nat): (c: char)
    requires d < 10
    ensures IsDigit(c) && DigitValue(c) == d
  {
    ('0' as int + d) as char
  }

  /** `"%d" % n` for a non-negative `n`. */
  function Decimal(n: nat): (r: string)
    ensures r != [] && AllDigits(r)
  {
    if n < 10 then [DigitChar(n)] else Decimal(n / 10) + [DigitChar(n % 10)]
  }

  lemma {:induction false} DecimalValue(n: nat)
    ensures DigitsValue(Decimal(n)) == n
  {
    if n >= 10 {
      var s := Decimal(n);
      assert s[..|s| - 1] == Decimal(n / 10);
      DecimalValue(n / 10);
    }
  }

  /** `int("%d" % n) == n`: what "%d" prints, `int()` reads back. */
  lemma ParseDecimal(n: nat)
    ensures ParseInt(Decimal(n)) == Ok(n)
  {
    var s := Decimal(n);
    assert !IsSpace(s[|s| - 1]) && !IsSpace(s[0]);
    assert RStrip(s) == s;
    assert LStrip(s) == s;
    DecimalValue(n);
  }

  /** Stripping removes exactly the whitespace around a text that neither starts nor
      ends with whitespace. */
  lemma StripPadded(w1: string, body: string, w3: string)
    requires AllSpaces(w1) && AllSpaces(w3)
    requires body != [] && !IsSpace(body[0]) && !IsSpace(body[|body| - 1])
    ensures LStrip(RStrip(w1 + body + w3)) == body
  {
    RStripSpaces(w1 + body, w3);
    LStripSpaces(w1, body);
  }

  /** A sign, whitespace, then digits spell the signed value of the digits. */
  lemma ReadSigned(sign: string, w: string, d: string)
    requires sign == "" || sign == "-" || sign == "+"
    requires AllSpaces(w) && (sign == "" ==> w == [])
    requires d != [] && AllDigits(d)
    ensures ReadNumber(sign + w + d) == Some(if sign == "-" then -(DigitsValue(d) as int) else DigitsValue(d) as int)
  {
    var t := sign + w + d;
    assert !IsSpace(d[0]);
    if sign == "" {
      assert t == d;
    } else {
      assert t[0] == sign[0] && t[1..] == w + d;
      LStripSpaces(w, d);
    }
  }

  lemma ParseVia(s: string, t: string, v: int)
    requires LStrip(RStrip(s)) == t && ReadNumber(t) == Some(v)
    ensures ParseInt(s) == Ok(v)
  {
  }

  lemma ParseUnsignedPadded(n: nat, w1: string, w3: string)
    requires AllSpaces(w1) && AllSpaces(w3)
    ensures ParseInt(w1 + Decimal(n) + w3) == Ok(n)
  {
    var d := Decimal(n);
    assert !IsSpace(d[0]) && !IsSpace(d[|d| - 1]);
    DecimalValue(n);
    StripPadded(w1, d, w3);
    ReadSigned("", "", d);
    assert "" + "" + d == d;
    ParseVia(w1 + d + w3, d, n);
  }

  lemma ParseSignedPadded(n: nat, sign: string, w1: string, w2: string, w3: string)
    requires sign == "-" || sign == "+"
    requires AllSpaces(w1) && AllSpaces(w2) && AllSpaces(w3)
    ensures ParseInt(w1 + (sign + w2 + Decimal(n)) + w3) == Ok(if sign == "-" then -(n as int) else n as int)
  {
    var d := Decimal(n);
    var body := sign + w2 + d;
    assert !IsSpace(d[0]) && !IsSpace(d[|d| - 1]);
    assert !IsSpace(body[0]) && body[|body| - 1] == d[|d| - 1];
    DecimalValue(n);
    StripPadded(w1, body, w3);
    ReadSigned(sign, w2, d);
    ParseVia(w1 + body + w3, body, if sign == "-" then -(n as int) else n as int);
  }

  /** A number written as `"%d"` with an optional sign and whitespace around the sign
      and the digits reads back as that number, with the sign applied. */
  lemma ParsePadded(n: nat, sign: string, w1: string, w2: string, w3: string)
    requires sign == "" || sign == "-" || sign == "+"
    requires AllSpaces(w1) && AllSpaces(w2) && AllSpaces(w3)
    ensures ParseInt(w1 + sign + w2 + Decimal(n) + w3) == Ok(if sign == "-" then -(n as int) else n as int)
  {
    if sign == "" {
      assert w1 + sign + w2 + Decimal(n) + w3 == (w1 + w2) + Decimal(n) + w3;
      assert AllSpaces(w1 + w2);
      ParseUnsignedPadded(n, w1 + w2, w3);
    } else {
      assert w1 + sign + w2 + Decimal(n) + w3 == w1 + (sign + w2 + Decimal(n)) + w3;
      ParseSignedPadded(n, sign, w1, w2, w3);
    }
  }
}
