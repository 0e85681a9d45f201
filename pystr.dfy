/**
 * The few Python string operations the two scripts rely on: integer
 * formatting (`str(n)`, `f"{n:0w}"`), `str.strip()`, `str.lower()`,
 * `str.endswith(tuple)` and `os.path.splitext(p)[0]`, together with a
 * parser for decimal digits that serves as their partner.
 */
module PyStr {
  import opened Wrappers

  // ---------------------------------------------------------------------------
  // Decimal digits
  // ---------------------------------------------------------------------------

  predicate IsDigit(c: char) { '0' <= c <= '9' }

  predicate AllDigits(s: string) { forall i :: 0 <= i < |s| ==> IsDigit(s[i]) }

  function DigitChar(d: nat): (c: char)
    requires d < 10
    ensures IsDigit(c)
  {
    ('0' as int + d) as char
  }

  function DigitValue(c: char): (d: nat)
    requires IsDigit(c)
    ensures d < 10 && DigitChar(d) == c
  {
    c as int - '0' as int
  }

  /** `str(n)` for a non-negative integer: ASCII digits, no leading zero. */
  function NatToString(n: nat): (s: string)
    ensures |s| >= 1 && AllDigits(s)
    ensures s[0] == '0' ==> n == 0
    ensures n < 10 <==> |s| == 1
    decreases n
  {
    if n < 10 then [DigitChar(n)] else NatToString(n / 10) + [DigitChar(n % 10)]
  }

  function Pow10(k: nat): (p: nat)
    ensures p >= 1
  {
    if k == 0 then 1 else 10 * Pow10(k - 1)
  }

  /** A number below 10^k has at most k digits. */
  lemma {:induction false} NatToStringLength(n: nat, k: nat)
    requires 1 <= k && n < Pow10(k)
    ensures |NatToString(n)| <= k
    decreases k
  {
    if n >= 10 {
      assert k >= 2;
      assert n / 10 < Pow10(k - 1);
      NatToStringLength(n / 10, k - 1);
    }
  }

  /** The value of a string of decimal digits, most significant first. */
  function DigitsValue(s: string): nat
    requires AllDigits(s)
    decreases |s|
  {
    if s == [] then 0 else DigitsValue(s[..|s| - 1]) * 10 + DigitValue(s[|s| - 1])
  }

  /** Reads a non-empty run of decimal digits (leading zeros allowed). */
  function ParseNat(s: string): Option<nat>
  {
    if |s| > 0 && AllDigits(s) then Some(DigitsValue(s)) else None
  }

  lemma {:induction false} DigitsValueOfNatToString(n: nat)
    ensures DigitsValue(NatToString(n)) == n
    decreases n
  {
    var s := NatToString(n);
    if n >= 10 {
      DigitsValueOfNatToString(n / 10);
      assert s[..|s| - 1] == NatToString(n / 10);
    }
  }

  function Zeros(k: nat): (s: string)
    ensures |s| == k && forall i :: 0 <= i < k ==> s[i] == '0'
  {
    seq(k, _ => '0')
  }

  lemma {:induction false} LeadingZerosValue(k: nat, s: string)
    requires AllDigits(s)
    ensures AllDigits(Zeros(k) + s) && DigitsValue(Zeros(k) + s) == DigitsValue(s)
    decreases |s|
  {
    var z := Zeros(k) + s;
    if s == [] {
      assert z == Zeros(k);
      ZerosValue(k);
    } else {
      assert z[..|z| - 1] == Zeros(k) + s[..|s| - 1];
      LeadingZerosValue(k, s[..|s| - 1]);
    }
  }

  lemma {:induction false} ZerosValue(k: nat)
    ensures DigitsValue(Zeros(k)) == 0
    decreases k
  {
    if k > 0 {
      assert Zeros(k)[..k - 1] == Zeros(k - 1);
      ZerosValue(k - 1);
    }
  }

  /**
   * `f"{n:0{width}}"` for a non-negative integer: the digits of `n`,
   * left-padded with '0' to at least `width` characters.
   */
  function PadNat(n: nat, width: nat): (s: string)
    ensures |s| == if |NatToString(n)| >= width then |NatToString(n)| else width
    ensures AllDigits(s)
  {
    var digits := NatToString(n);
    if |digits| >= width then digits else Zeros(width - |digits|) + digits
  }

  /** Padding keeps the value: reading a padded number back gives the number. */
  lemma PadNatRoundTrip(n: nat, width: nat)
    ensures ParseNat(PadNat(n, width)) == Some(n)
  {
    var digits := NatToString(n);
    DigitsValueOfNatToString(n);
    if |digits| < width {
      LeadingZerosValue(width - |digits|, digits);
    }
  }

  /** `str(n)` for any integer: a minus sign before the digits of a negative number. */
  function IntToString(n: int): string
  {
    if n < 0 then "-" + NatToString(-n) else NatToString(n)
  }

  lemma IntToStringRoundTrip(n: int)
    ensures ParseInt(IntToString(n)) == Some(n)
  {
    if n < 0 {
      var digits := NatToString(-n);
      assert ParseNat(digits) == Some(-n) by { DigitsValueOfNatToString(-n); }
      assert IntToString(n)[1..] == digits;
    } else {
      assert ParseNat(NatToString(n)) == Some(n) by { DigitsValueOfNatToString(n); }
    }
  }


  /** Inverse of IntToString: an optional '-' followed by digits. */
  function ParseInt(s: string): Option<int>
  {
    if |s| > 0 && s[0] == '-' then
      match ParseNat(s[1..])
      case Some(n) => Some(-(n as int))
      case None => None
    else
      match ParseNat(s)
      case Some(n) => Some(n as int)
      case None => None
  }

  lemma IntToStringInjective(a: int, b: int)
    requires IntToString(a) == IntToString(b)
    ensures a == b
  {
    IntToStringRoundTrip(a);
    IntToStringRoundTrip(b);
  }

  // ---------------------------------------------------------------------------
  // str.partition()
  // ---------------------------------------------------------------------------

  /** The prefix before the first `sep` and the rest after it. */
  function SplitFirst(s: string, sep: char): (r: Option<(string, string)>)
    ensures r.Some? ==> s == r.value.0 + [sep] + r.value.1 && sep !in r.value.0
    ensures r.None? ==> sep !in s
  {
    if s == [] then None
    else if s[0] == sep then Some(([], s[1..]))
    else
      match SplitFirst(s[1..], sep)
      case None => None
      case Some(parts) => Some(([s[0]] + parts.0, parts.1))
  }

  lemma {:induction false} SplitFirstOfJoin(a: string, sep: char, b: string)
    requires sep !in a
    ensures SplitFirst(a + [sep] + b, sep) == Some((a, b))
  {
    var s := a + [sep] + b;
    if a != [] {
      assert s[1..] == a[1..] + [sep] + b;
      SplitFirstOfJoin(a[1..], sep, b);
      assert [a[0]] + a[1..] == a;
    } else {
      assert s[1..] == b;
    }
  }

  /** `s` with the literal `prefix` removed from its front, if it starts with it. */
  function DropPrefix(s: string, prefix: string): (r: Option<string>)
    ensures r.Some? <==> |prefix| <= |s| && s[..|prefix|] == prefix
    ensures r.Some? ==> s == prefix + r.value
  {
    if |prefix| <= |s| && s[..|prefix|] == prefix then Some(s[|prefix|..]) else None
  }

  lemma DropPrefixOfJoin(prefix: string, rest: string)
    ensures DropPrefix(prefix + rest, prefix) == Some(rest)
  {
    assert (prefix + rest)[..|prefix|] == prefix;
    assert (prefix + rest)[|prefix|..] == rest;
  }

  lemma NoSeparatorInDigits(s: string, c: char)
    requires AllDigits(s) && !IsDigit(c)
    ensures c !in s
  {
  }

  // ---------------------------------------------------------------------------
  // str.strip()
  // ---------------------------------------------------------------------------

  /** The characters for which Python's `str.isspace()` holds. */
  predicate IsSpace(c: char)
  {
    || ('\t' <= c <= '\r')
    || ('\U{1C}' <= c <= '\U{1F}')
    || c == ' '
    || c == '\U{85}'
    || c == '\U{A0}'
    || c == '\U{1680}'
    || ('\U{2000}' <= c <= '\U{200A}')
    || c == '\U{2028}'
    || c == '\U{2029}'
    || c == '\U{202F}'
    || c == '\U{205F}'
    || c == '\U{3000}'
  }

  /** Length of the whitespace run at the start of `s`. */
  function LeadingSpaces(s: string): (n: nat)
    ensures n <= |s|
    ensures forall i :: 0 <= i < n ==> IsSpace(s[i])
    ensures n < |s| ==> !IsSpace(s[n])
  {
    if s != [] && IsSpace(s[0]) then 1 + LeadingSpaces(s[1..]) else 0
  }

  /** Length of the whitespace run at the end of `s`. */
  function TrailingSpaces(s: string): (n: nat)
    ensures n <= |s|
    ensures forall i :: |s| - n <= i < |s| ==> IsSpace(s[i])
    ensures n < |s| ==> !IsSpace(s[|s| - 1 - n])
  {
    if s != [] && IsSpace(s[|s| - 1]) then 1 + TrailingSpaces(s[..|s| - 1]) else 0
  }

  /**
   * `s.strip()`: the window of `s` left after removing whitespace from both
   * ends. Everything removed is whitespace, and the window neither starts nor
   * ends with whitespace.
   */
  function Strip(s: string): (r: string)
    ensures |r| <= |s|
    ensures StrippedWindow(s, LeadingSpaces(s), LeadingSpaces(s) + |r|)
    ensures r == s[LeadingSpaces(s)..LeadingSpaces(s) + |r|]
  {
    var lead := LeadingSpaces(s);
    if lead == |s| then [] else s[lead..|s| - TrailingSpaces(s)]
  }

  /**
   * `s[i..j]` is a whitespace-free-ended window of `s` with only whitespace
   * outside it.
   */
  ghost predicate StrippedWindow(s: string, i: nat, j: nat)
  {
    && i <= j <= |s|
    && (forall k :: 0 <= k < i ==> IsSpace(s[k]))
    && (forall k :: j <= k < |s| ==> IsSpace(s[k]))
    && (i < j ==> !IsSpace(s[i]) && !IsSpace(s[j - 1]))
  }

  /** There is only one such window, so Strip is determined by its contract. */
  lemma StripUnique(s: string, i: nat, j: nat)
    requires StrippedWindow(s, i, j)
    ensures Strip(s) == s[i..j]
  {
    var r := Strip(s);
    var lead := LeadingSpaces(s);
    var e := lead + |r|;
    if i < j {
      assert lead == i;
      assert e == j;
    } else {
      assert forall k :: 0 <= k < |s| ==> IsSpace(s[k]);
      assert lead == |s|;
    }
  }

  lemma StripIdempotent(s: string)
    ensures Strip(Strip(s)) == Strip(s)
  {
    var r := Strip(s);
    assert StrippedWindow(r, 0, |r|);
    StripUnique(r, 0, |r|);
  }

  // ---------------------------------------------------------------------------
  // str.lower() and str.endswith()
  // ---------------------------------------------------------------------------

  /**
   * Lower-casing of one character as far as it can decide a match against
   * the ASCII file extensions: ASCII capitals and the KELVIN SIGN (U+212A,
   * whose lower case is 'k'); every other character is kept.
   */
  function LowerChar(c: char): char
  {
    if 'A' <= c <= 'Z' then (c as int + 32) as char
    else if c == '\U{212A}' then 'k'
    else c
  }

  function Lower(s: string): (r: string)
    ensures |r| == |s| && forall i :: 0 <= i < |s| ==> r[i] == LowerChar(s[i])
  {
    seq(|s|, i requires 0 <= i < |s| => LowerChar(s[i]))
  }

  /**
   * Two characters that are the same letter up to case: an ASCII letter in
   * either case, or 'k', 'K' and the KELVIN SIGN.
   */
  predicate SameIgnoringCase(a: char, b: char)
  {
    || a == b
    || ('A' <= a <= 'Z' && b as int == a as int + 32)
    || ('A' <= b <= 'Z' && a as int == b as int + 32)
    || (a == '\U{212A}' && (b == 'k' || b == 'K'))
    || (b == '\U{212A}' && (a == 'k' || a == 'K'))
  }

  /** Two strings that differ at most in the case of their letters. */
  predicate CaseVariants(s: string, t: string)
  {
    |s| == |t| && forall i :: 0 <= i < |s| ==> SameIgnoringCase(s[i], t[i])
  }

  /** Lower-casing erases every difference of case. */
  lemma LowerIgnoresCase(s: string, t: string)
    requires CaseVariants(s, t)
    ensures Lower(s) == Lower(t)
  {
    forall i | 0 <= i < |s|
      ensures Lower(s)[i] == Lower(t)[i]
    {
      assert SameIgnoringCase(s[i], t[i]);
    }
  }

  /** Lower-casing maps a string to its own lower case, which it then keeps. */
  lemma LowerIdempotent(s: string)
    ensures Lower(Lower(s)) == Lower(s)
    ensures CaseVariants(s, Lower(s))
  {
    forall i | 0 <= i < |s|
      ensures Lower(Lower(s))[i] == Lower(s)[i] && SameIgnoringCase(s[i], Lower(s)[i])
    {
    }
  }

  predicate EndsWith(s: string, suffix: string)
  {
    |suffix| <= |s| && s[|s| - |suffix|..] == suffix
  }

  /** `s.endswith(suffixes)` for a tuple of suffixes. */
  function EndsWithAny(s: string, suffixes: seq<string>): (b: bool)
    ensures b <==> exists k :: 0 <= k < |suffixes| && EndsWith(s, suffixes[k])
  {
    if suffixes == [] then false
    else EndsWith(s, suffixes[0]) || EndsWithAny(s, suffixes[1..])
  }

  // ---------------------------------------------------------------------------
  // os.path.splitext(p)[0]
  // ---------------------------------------------------------------------------

  /** `p.rfind(c)`: the last index of `c` in `p`, or -1. */
  function LastIndexOf(p: string, c: char): (r: int)
    ensures -1 <= r < |p|
    ensures r >= 0 ==> p[r] == c
    ensures forall k :: r < k < |p| ==> p[k] != c
    decreases |p|
  {
    if p == [] then -1
    else if p[|p| - 1] == c then |p| - 1
    else LastIndexOf(p[..|p| - 1], c)
  }

  /**
   * `os.path.splitext(p)[0]` on POSIX: cut at the last '.' that comes after
   * the last '/' and has something other than dots between that '/' and it;
   * otherwise `p` itself (so ".wav" has no extension).
   */
  function SplitextRoot(p: string): (root: string)
    ensures |root| <= |p| && root == p[..|root|]
    ensures root != p ==> p[|root|] == '.' && forall k :: |root| < k < |p| ==> p[k] != '.' && p[k] != '/'
    ensures root != p ==> exists k :: LastIndexOf(p, '/') < k < |root| && p[k] != '.'
    ensures (exists k, d :: LastIndexOf(p, '/') < k < d < |p| && p[k] != '.' && p[d] == '.') ==> root != p
  {
    var sepIndex := LastIndexOf(p, '/');
    var dotIndex := LastIndexOf(p, '.');
    if dotIndex > sepIndex && exists k :: sepIndex + 1 <= k < dotIndex && p[k] != '.' then
      p[..dotIndex]
    else
      p
  }

  /**
   * Splitting `root + "." + ext` gives back `root` when the extension holds no
   * '.' or '/', and the last path component of `root` is not all dots.
   */
  lemma SplitextRootOfJoin(root: string, ext: string, k: nat)
    requires forall i :: 0 <= i < |ext| ==> ext[i] != '.' && ext[i] != '/'
    requires k < |root| && root[k] != '.' && forall i :: k <= i < |root| ==> root[i] != '/'
    ensures SplitextRoot(root + "." + ext) == root
  {
    var p := root + "." + ext;
    var dotIndex := LastIndexOf(p, '.');
    var sepIndex := LastIndexOf(p, '/');
    assert p[|root|] == '.';
    assert forall i :: |root| < i < |p| ==> p[i] != '.' by {
      forall i | |root| < i < |p| ensures p[i] != '.' { assert p[i] == ext[i - |root| - 1]; }
    }
    assert dotIndex == |root|;
    assert forall i :: k <= i < |p| ==> p[i] != '/' by {
      forall i | k <= i < |p| ensures p[i] != '/' {
        if i < |root| { assert p[i] == root[i]; } else if i > |root| { assert p[i] == ext[i - |root| - 1]; }
      }
    }
    assert p[k] == root[k];
    assert p[..dotIndex] == root;
  }

  /**
   * A name whose last component has no '.' after a non-dot character keeps
   * its whole self: no extension is cut from `notes`, `.wav` or `dir/..mp3`.
   */
  lemma SplitextKeepsWhole(p: string)
    requires forall k, d :: LastIndexOf(p, '/') < k < d < |p| && p[k] != '.' ==> p[d] != '.'
    ensures SplitextRoot(p) == p
  {
  }
}
