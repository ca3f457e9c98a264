/** The Python `str` operations the scorer relies on, over `string` (a sequence of
    code points): strip, startswith/endswith, `in`, split, count, replace-with-empty,
    isdigit and int(). */
module Text {
  import opened Wrappers

  /** The characters for which Python's `str.isspace()` holds; `str.strip()` with no
      argument removes exactly these. */
  const Whitespace: set<char> := {
    '\t', '\n', '\U{B}', '\U{C}', '\r', '\U{1C}', '\U{1D}', '\U{1E}', '\U{1F}', ' ',
    '\U{85}', '\U{A0}', '\U{1680}',
    '\U{2000}', '\U{2001}', '\U{2002}', '\U{2003}', '\U{2004}', '\U{2005}',
    '\U{2006}', '\U{2007}', '\U{2008}', '\U{2009}', '\U{200A}',
    '\U{2028}', '\U{2029}', '\U{202F}', '\U{205F}', '\U{3000}'
  }

  /** The characters `int()` skips around a number: the ASCII whitespace of C's
      `isspace` and every non-ASCII character of `Whitespace` (which `int()` first
      turns into a space). The ASCII separators U+001C..U+001F are whitespace for
      `str.isspace()` but not for `int()`. */
  const IntWhitespace: set<char> := Whitespace - {'\U{1C}', '\U{1D}', '\U{1E}', '\U{1F}'}

  /** The byte-order mark U+FEFF (not whitespace for Python). */
  const Bom: char := '\U{FEFF}'

  // ---------------------------------------------------------------- strip

  /** `s.lstrip(chars)`: drop the longest prefix made of characters of `cs`. */
  function TrimStart(s: string, cs: set<char>): (r: string)
    ensures |r| <= |s| && r == s[|s| - |r|..]
    ensures forall k :: 0 <= k < |s| - |r| ==> s[k] in cs
    ensures r == [] || r[0] !in cs
  {
    if |s| > 0 && s[0] in cs then TrimStart(s[1..], cs) else s
  }

  /** `s.rstrip(chars)`: drop the longest suffix made of characters of `cs`. */
  function TrimEnd(s: string, cs: set<char>): (r: string)
    ensures |r| <= |s| && r == s[..|r|]
    ensures forall k :: |r| <= k < |s| ==> s[k] in cs
    ensures r == [] || r[|r| - 1] !in cs
  {
    if |s| > 0 && s[|s| - 1] in cs then TrimEnd(s[..|s| - 1], cs) else s
  }

  /** `r` is `s` with a prefix of length `i` and some suffix cut off, and every
      character cut off is in `cs`. */
  predicate TrimmedAt(s: string, r: string, cs: set<char>, i: int) {
    && 0 <= i && i + |r| <= |s| && r == s[i..i + |r|]
    && (forall k :: 0 <= k < i ==> s[k] in cs)
    && (forall k :: i + |r| <= k < |s| ==> s[k] in cs)
  }

  /** `s.strip(chars)`: the middle of `s` left once both ends lose their characters of `cs`. */
  function Strip(s: string, cs: set<char>): (r: string)
    ensures exists i :: TrimmedAt(s, r, cs, i)
    ensures r == [] <==> forall k :: 0 <= k < |s| ==> s[k] in cs
    ensures r != [] ==> r[0] !in cs && r[|r| - 1] !in cs
  {
    TrimBoth(s, cs);
    TrimEnd(TrimStart(s, cs), cs)
  }

  lemma TrimBoth(s: string, cs: set<char>)
    ensures TrimmedAt(s, TrimEnd(TrimStart(s, cs), cs), cs, |s| - |TrimStart(s, cs)|)
    ensures TrimEnd(TrimStart(s, cs), cs) == [] <==> forall k :: 0 <= k < |s| ==> s[k] in cs
  {
    var t := TrimStart(s, cs);
    var r := TrimEnd(t, cs);
    var i := |s| - |t|;
    assert r == s[i..i + |r|];
    assert forall k :: i + |r| <= k < |s| ==> s[k] == t[k - i];
    assert TrimmedAt(s, r, cs, i);
    if r != [] {
      assert s[i] == r[0];
    }
  }

  /** Stripping leaves a string alone when neither end character is strippable. */
  lemma StripUnchanged(s: string, cs: set<char>)
    requires s != [] ==> s[0] !in cs && s[|s| - 1] !in cs
    ensures Strip(s, cs) == s
  {
  }

  /** A leading character of `cs` makes no difference to the stripped text. */
  lemma StripSkip(s: string, cs: set<char>)
    requires |s| > 0 && s[0] in cs
    ensures Strip(s, cs) == Strip(s[1..], cs)
  {
  }

  /** A leading character outside `cs` survives stripping as the first character. */
  lemma StripFirst(s: string, cs: set<char>)
    requires |s| > 0 && s[0] !in cs
    ensures |Strip(s, cs)| > 0 && Strip(s, cs)[0] == s[0]
  {
    assert TrimStart(s, cs) == s;
  }

  // ---------------------------------------------------------- prefix tests

  predicate StartsWith(s: string, prefix: string) {
    |prefix| <= |s| && s[..|prefix|] == prefix
  }

  predicate EndsWith(s: string, suffix: string) {
    |suffix| <= |s| && s[|s| - |suffix|..] == suffix
  }

  // ------------------------------------------------------ substring search

  /** `sub` occurs in `s` starting at position `j`. */
  predicate At(s: string, sub: string, j: int) {
    0 <= j && j + |sub| <= |s| && s[j..j + |sub|] == sub
  }

  /** The first position at or after `i` where `sub` occurs (`str.find` from `i`). */
  function IndexFrom(s: string, sub: string, i: nat): (r: Option<nat>)
    requires |sub| > 0 && i <= |s|
    ensures r.Some? ==> i <= r.value && At(s, sub, r.value)
                        && forall j :: i <= j < r.value ==> !At(s, sub, j)
    ensures r.None? ==> forall j :: i <= j ==> !At(s, sub, j)
    decreases |s| - i
  {
    if i + |sub| > |s| then None
    else if s[i..i + |sub|] == sub then Some(i)
    else IndexFrom(s, sub, i + 1)
  }

  /** The first position where `sub` occurs in `s`. */
  function IndexOf(s: string, sub: string): Option<nat>
    requires |sub| > 0
  {
    IndexFrom(s, sub, 0)
  }

  /** Python's `sub in s`. */
  predicate Contains(s: string, sub: string)
    requires |sub| > 0
  {
    IndexOf(s, sub).Some?
  }

  lemma ContainsIffAt(s: string, sub: string)
    requires |sub| > 0
    ensures Contains(s, sub) <==> exists j :: At(s, sub, j)
  {
  }

  /** An occurrence inside a prefix is an occurrence in the whole string. */
  lemma AtPrefix(s: string, sub: string, i: nat, j: int)
    requires i <= |s| && At(s[..i], sub, j)
    ensures At(s, sub, j)
  {
    assert s[..i][j..j + |sub|] == s[j..j + |sub|];
  }

  /** An occurrence inside a suffix is an occurrence in the whole string, shifted. */
  lemma AtSuffix(s: string, sub: string, i: nat, j: int)
    requires i <= |s| && At(s[i..], sub, j)
    ensures At(s, sub, i + j)
  {
    assert s[i..][j..j + |sub|] == s[i + j..i + j + |sub|];
  }

  /** A one-character needle occurs exactly when the character does. */
  lemma ContainsChar(s: string, c: char)
    ensures Contains(s, [c]) <==> c in s
  {
    ContainsIffAt(s, [c]);
    if c in s {
      var j :| 0 <= j < |s| && s[j] == c;
      assert At(s, [c], j);
    } else {
      forall j | 0 <= j < |s|
        ensures !At(s, [c], j)
      {
        assert s[j..j + 1][0] == s[j];
      }
    }
  }

  // ------------------------------------------------------------------ split

  /** Python's `s.split(sep)`: cut at every occurrence of `sep`, scanning left to right. */
  function Split(s: string, sep: string): (r: seq<string>)
    requires |sep| > 0
    ensures |r| >= 1
    ensures Join(r, sep) == s
    ensures forall k :: 0 <= k < |r| ==> !Contains(r[k], sep)
    ensures |r| == 1 <==> !Contains(s, sep)
    decreases |s|
  {
    match IndexOf(s, sep)
    case None => [s]
    case Some(i) =>
      var rest := Split(s[i + |sep|..], sep);
      SplitStep(s, sep, i, rest);
      [s[..i]] + rest
  }

  /** One step of `Split`: the piece before the first `sep`, then the split of the rest. */
  lemma SplitStep(s: string, sep: string, i: nat, rest: seq<string>)
    requires |sep| > 0 && IndexOf(s, sep) == Some(i)
    requires |rest| >= 1 && Join(rest, sep) == s[i + |sep|..]
    requires forall k :: 0 <= k < |rest| ==> !Contains(rest[k], sep)
    ensures Join([s[..i]] + rest, sep) == s
    ensures forall k :: 0 <= k < |rest| + 1 ==> !Contains(([s[..i]] + rest)[k], sep)
    ensures |[s[..i]] + rest| != 1 && Contains(s, sep)
  {
    NoOccurrenceBefore(s, sep, i);
    var r := [s[..i]] + rest;
    assert r[1..] == rest;
    assert s == s[..i] + sep + s[i + |sep|..];
    forall k | 0 <= k < |r|
      ensures !Contains(r[k], sep)
    {
      if k > 0 {
        assert r[k] == rest[k - 1];
      }
    }
  }

  /** The part before the first occurrence of `sep` contains no `sep`. */
  lemma NoOccurrenceBefore(s: string, sep: string, i: nat)
    requires |sep| > 0 && IndexOf(s, sep) == Some(i)
    ensures !Contains(s[..i], sep)
  {
    if Contains(s[..i], sep) {
      var j := IndexOf(s[..i], sep).value;
      AtPrefix(s, sep, i, j);
    }
  }

  /** The inverse of `Split`: the parts glued back together with `sep`. */
  function Join(parts: seq<string>, sep: string): string
    requires |parts| >= 1
  {
    if |parts| == 1 then parts[0] else parts[0] + sep + Join(parts[1..], sep)
  }

  /** If `a` holds no `sep` and no tail of `a` starts `sep`, then the first
      occurrence of `sep` in `a + sep + b` is the one right after `a`, so the
      split begins with `a`. */
  lemma {:induction false} SplitAfterFirst(a: string, sep: string, b: string)
    requires |sep| > 0
    requires !Contains(a, sep)
    requires forall k :: 0 < k < |sep| && k <= |a| ==> a[|a| - k..] != sep[..k]
    ensures Split(a + sep + b, sep) == [a] + Split(b, sep)
  {
    var s := a + sep + b;
    assert At(s, sep, |a|) by { assert s[|a|..|a| + |sep|] == sep; }
    ContainsIffAt(a, sep);
    forall j | 0 <= j < |a|
      ensures !At(s, sep, j)
    {
      if j + |sep| <= |a| {
        assert s[j..j + |sep|] == a[j..j + |sep|];
        assert !At(a, sep, j);
      } else if j + |sep| <= |s| {
        OverlapIsPrefix(a, sep, b, j);
        assert a[|a| - (|a| - j)..] != sep[..|a| - j];
      }
    }
    var i := IndexOf(s, sep).value;
    assert i == |a|;
    assert s[..i] == a;
    assert s[i + |sep|..] == b;
  }

  /** An occurrence of `sep` that starts inside `a` and runs past its end begins
      with the tail of `a`. */
  lemma OverlapIsPrefix(a: string, sep: string, b: string, j: int)
    requires 0 <= j < |a| < j + |sep|
    ensures At(a + sep + b, sep, j) ==> a[j..] == sep[..|a| - j]
  {
    var s := a + sep + b;
    if At(s, sep, j) {
      forall t | 0 <= t < |a| - j
        ensures a[j..][t] == sep[..|a| - j][t]
      {
        assert s[j + t] == a[j + t];
        assert s[j..j + |sep|][t] == s[j + t];
      }
    }
  }

  /** `s.split(c, 1)` when `c in s`: the text before the first `c` and the text
      after it; `None` when `c` does not occur. */
  function SplitOnce(s: string, c: char): (r: Option<(string, string)>)
    ensures r.None? <==> c !in s
    ensures r.Some? ==> s == r.value.0 + [c] + r.value.1 && c !in r.value.0
  {
    if |s| == 0 then None
    else if s[0] == c then Some(([], s[1..]))
    else
      match SplitOnce(s[1..], c)
      case None => None
      case Some((a, b)) => Some(([s[0]] + a, b))
  }

  /** The cut is at the first `c`: a text free of `c`, then `c`, splits back into
      its two sides. */
  lemma {:induction false} SplitOnceAfter(a: string, c: char, b: string)
    requires c !in a
    ensures SplitOnce(a + [c] + b, c) == Some((a, b))
  {
    var s := a + [c] + b;
    if |a| == 0 {
      assert s[1..] == b;
    } else {
      assert s[0] == a[0];
      assert s[1..] == a[1..] + [c] + b;
      SplitOnceAfter(a[1..], c, b);
      assert [a[0]] + a[1..] == a;
    }
  }

  // ------------------------------------------------------------------ count

  /** Python's `s.count(c)` for a one-character needle. */
  function CountChar(s: string, c: char): (n: nat)
    ensures n <= |s|
  {
    if |s| == 0 then 0 else (if s[0] == c then 1 else 0) + CountChar(s[1..], c)
  }

  /** The count is zero exactly when the character does not occur (`c in s`). */
  lemma {:induction false} CountCharZero(s: string, c: char)
    ensures CountChar(s, c) == 0 <==> c !in s
  {
    if |s| > 0 {
      CountCharZero(s[1..], c);
      assert s == [s[0]] + s[1..];
    }
  }

  /** Counting is additive over concatenation. */
  lemma {:induction false} CountCharAppend(a: string, b: string, c: char)
    ensures CountChar(a + b, c) == CountChar(a, c) + CountChar(b, c)
  {
    if |a| > 0 {
      assert (a + b)[1..] == a[1..] + b;
      CountCharAppend(a[1..], b, c);
    } else {
      assert a + b == b;
    }
  }

  /** A string that starts with `c` counts `c` at least once. */
  lemma CountCharStart(s: string, c: char)
    requires |s| > 0 && s[0] == c
    ensures CountChar(s, c) >= 1
  {
  }

  // ---------------------------------------------------------------- replace

  /** `s.replace(x, '')` for every character `x` of `cs`. */
  function RemoveChars(s: string, cs: set<char>): (r: string)
    ensures |r| <= |s|
    ensures forall k :: 0 <= k < |r| ==> r[k] !in cs
    ensures forall k :: 0 <= k < |r| ==> r[k] in s
    ensures (forall k :: 0 <= k < |s| ==> s[k] !in cs) ==> r == s
  {
    if |s| == 0 then []
    else if s[0] in cs then RemoveChars(s[1..], cs)
    else [s[0]] + RemoveChars(s[1..], cs)
  }

  // --------------------------------------------------------------- newlines

  /** Reading a file in text mode with universal newlines: each `\r\n` and each
      lone `\r` becomes `\n`. */
  function TranslateNewlines(s: string): (r: string)
    ensures |r| <= |s|
    ensures '\r' !in r
    decreases |s|
  {
    if |s| == 0 then []
    else if s[0] == '\r' && |s| > 1 && s[1] == '\n' then ['\n'] + TranslateNewlines(s[2..])
    else if s[0] == '\r' then ['\n'] + TranslateNewlines(s[1..])
    else [s[0]] + TranslateNewlines(s[1..])
  }

  /** A text without `\r` passes through unchanged in front of any rest. */
  lemma {:induction false} TranslatePrefix(a: string, t: string)
    requires '\r' !in a
    ensures TranslateNewlines(a + t) == a + TranslateNewlines(t)
    decreases |a|
  {
    if |a| == 0 {
      assert a + t == t;
    } else {
      var s := a + t;
      assert s == [a[0]] + (a[1..] + t);
      TranslateCons(a[0], a[1..] + t);
      TranslatePrefix(a[1..], t);
      assert [a[0]] + (a[1..] + TranslateNewlines(t)) == a + TranslateNewlines(t);
    }
  }

  /** A text without `\r` reads unchanged. */
  lemma TranslateNoCr(s: string)
    requires '\r' !in s
    ensures TranslateNewlines(s) == s
  {
    TranslatePrefix(s, []);
    assert s + [] == s;
  }

  lemma TranslateCons(c: char, t: string)
    requires c != '\r'
    ensures TranslateNewlines([c] + t) == [c] + TranslateNewlines(t)
  {
    assert ([c] + t)[1..] == t;
  }

  /** A line break, `\r\n` or a lone `\r`, after a text without `\r` reads as one
      `\n`. */
  lemma LineBreakTranslated(a: string, b: string)
    requires '\r' !in a
    ensures TranslateNewlines(a + "\r\n" + b) == a + "\n" + TranslateNewlines(b)
    ensures (b == [] || b[0] != '\n') ==> TranslateNewlines(a + "\r" + b) == a + "\n" + TranslateNewlines(b)
  {
    CrLfAfter(a, b);
    if b == [] || b[0] != '\n' {
      CrAfter(a, b);
    }
  }

  lemma CrLfAfter(a: string, b: string)
    requires '\r' !in a
    ensures TranslateNewlines(a + "\r\n" + b) == a + "\n" + TranslateNewlines(b)
  {
    var t := "\r\n" + b;
    assert a + "\r\n" + b == a + t;
    TranslatePrefix(a, t);
    assert t[0] == '\r' && t[1] == '\n' && t[2..] == b;
    assert a + (['\n'] + TranslateNewlines(b)) == a + "\n" + TranslateNewlines(b);
  }

  lemma CrAfter(a: string, b: string)
    requires '\r' !in a
    requires b == [] || b[0] != '\n'
    ensures TranslateNewlines(a + "\r" + b) == a + "\n" + TranslateNewlines(b)
  {
    var t := "\r" + b;
    assert a + "\r" + b == a + t;
    TranslatePrefix(a, t);
    assert t[0] == '\r' && t[1..] == b && !(|t| > 1 && t[1] == '\n');
    assert a + (['\n'] + TranslateNewlines(b)) == a + "\n" + TranslateNewlines(b);
  }

  // ----------------------------------------------------------------- digits

  predicate IsDigit(c: char) {
    '0' <= c <= '9'
  }

  predicate AllDigits(s: string) {
    forall k :: 0 <= k < |s| ==> IsDigit(s[k])
  }

  /** `s.isdigit()`, over ASCII digits: non-empty and digits only. */
  predicate IsDigits(s: string) {
    |s| > 0 && AllDigits(s)
  }

  /** The number a string of decimal digits denotes (0 for the empty string). */
  function DigitsValue(s: string): nat
    requires AllDigits(s)
  {
    if |s| == 0 then 0
    else DigitsValue(s[..|s| - 1]) * 10 + (s[|s| - 1] as int - '0' as int)
  }

  function DigitChar(d: nat): (c: char)
    requires d < 10
    ensures IsDigit(c) && c as int - '0' as int == d
  {
    ('0' as int + d) as char
  }

  /** The decimal representation of `n` (`str(n)` for a non-negative int). */
  function DecimalString(n: nat): (s: string)
    ensures IsDigits(s)
    ensures s[0] == '0' ==> n == 0
  {
    if n < 10 then [DigitChar(n)] else DecimalString(n / 10) + [DigitChar(n % 10)]
  }

  /** Reading back a decimal representation gives the number. */
  lemma {:induction false} DecimalStringRoundTrip(n: nat)
    ensures DigitsValue(DecimalString(n)) == n
  {
    if n >= 10 {
      var s := DecimalString(n);
      assert s[..|s| - 1] == DecimalString(n / 10);
      DecimalStringRoundTrip(n / 10);
    }
  }

  // -------------------------------------------------------------------- int

  /** Digits with single underscores between them, as Python's int() accepts. */
  predicate IsDigitGroups(s: string) {
    && |s| > 0
    && IsDigit(s[0]) && IsDigit(s[|s| - 1])
    && (forall k :: 0 <= k < |s| ==> IsDigit(s[k]) || s[k] == '_')
    && (forall k :: 0 <= k < |s| - 1 ==> s[k] == '_' ==> s[k + 1] != '_')
  }

  /** Python's `int(s)` on a string (base 10, ASCII digits): surrounding `int()`
      whitespace, an optional sign, then digit groups. `None` stands for the
      ValueError. */
  function ParseInt(s: string): (r: Option<int>)
    ensures IsDigits(s) ==> r == Some(DigitsValue(s))
  {
    PlainDigitsParse(s);
    ParseSigned(Strip(s, IntWhitespace))
  }

  /** A plain digit string is read as its value. */
  lemma PlainDigitsParse(s: string)
    ensures IsDigits(s) ==> ParseSigned(Strip(s, IntWhitespace)) == Some(DigitsValue(s))
  {
    if IsDigits(s) {
      DigitNotWhitespace(s[0]);
      DigitNotWhitespace(s[|s| - 1]);
      StripUnchanged(s, IntWhitespace);
      UnsignedDigitsParse(s);
    }
  }

  /** A leading information separator (U+001C) is not skipped: `int()` rejects the text. */
  lemma SeparatorPaddingRejected()
    ensures ParseInt("\U{1C}5000") == None
  {
    var s := "\U{1C}5000";
    assert s[0] !in IntWhitespace && s[|s| - 1] !in IntWhitespace;
    StripUnchanged(s, IntWhitespace);
    assert SignPrefix(s) == (false, s);
    assert !IsDigitGroups(s);
  }

  /** The value of digit groups, underscores dropped. */
  function GroupsValue(body: string): (r: Option<nat>)
    ensures IsDigits(body) ==> r == Some(DigitsValue(body))
  {
    if IsDigitGroups(body) then
      var digits := RemoveChars(body, {'_'});
      assert AllDigits(digits);
      Some(DigitsValue(digits))
    else
      None
  }

  /** A leading sign character and the text after it. */
  function SignPrefix(t: string): (r: (bool, string))
    ensures |t| > 0 && t[0] == '-' ==> r == (true, t[1..])
    ensures |t| > 0 && IsDigit(t[0]) ==> r == (false, t)
  {
    if |t| > 0 && t[0] == '-' then (true, t[1..])
    else if |t| > 0 && t[0] == '+' then (false, t[1..])
    else (false, t)
  }

  /** int() on an already stripped string: optional sign, then digit groups. */
  function ParseSigned(t: string): Option<int> {
    var (negative, body) := SignPrefix(t);
    match GroupsValue(body)
    case None => None
    case Some(v) =>
      var n: int := v;
      Some(if negative then -n else n)
  }

  lemma UnsignedDigitsParse(s: string)
    requires IsDigits(s)
    ensures ParseSigned(s) == Some(DigitsValue(s))
  {
  }

  lemma NegativeDigitsParse(s: string)
    requires IsDigits(s)
    ensures ParseSigned("-" + s) == Some(-(DigitsValue(s) as int))
  {
    var t := "-" + s;
    assert t[0] == '-';
    assert t[1..] == s;
    assert SignPrefix(t) == (true, s);
  }

  /** `str(n)` for any int. */
  function IntToString(n: int): string {
    if n < 0 then "-" + DecimalString(-n) else DecimalString(n)
  }

  lemma DigitNotWhitespace(c: char)
    requires IsDigit(c)
    ensures c !in Whitespace && c !in IntWhitespace
  {
  }

  /** int() reads back a decimal representation, with or without a minus sign. */
  lemma ParseSignedDecimal(m: nat)
    ensures ParseSigned(DecimalString(m)) == Some(m)
    ensures ParseSigned("-" + DecimalString(m)) == Some(-(m as int))
  {
    DecimalStringRoundTrip(m);
    UnsignedDigitsParse(DecimalString(m));
    NegativeDigitsParse(DecimalString(m));
  }

  /** The representation of an int has no surrounding whitespace. */
  lemma IntToStringStripped(n: int)
    ensures Strip(IntToString(n), IntWhitespace) == IntToString(n)
  {
    var s := IntToString(n);
    var d := DecimalString(if n < 0 then -n else n);
    DigitNotWhitespace(d[|d| - 1]);
    assert s[|s| - 1] == d[|d| - 1];
    if n >= 0 {
      DigitNotWhitespace(d[0]);
    } else {
      assert s[0] == '-';
    }
    StripUnchanged(s, IntWhitespace);
  }

  lemma ParseSignedIntToString(n: int)
    ensures ParseSigned(IntToString(n)) == Some(n)
  {
    if n < 0 {
      assert IntToString(n) == "-" + DecimalString(-n);
      ParseSignedDecimal(-n);
    } else {
      ParseSignedDecimal(n);
    }
  }

  /** `int(str(n)) == n`. */
  lemma IntToStringRoundTrip(n: int)
    ensures ParseInt(IntToString(n)) == Some(n)
  {
    IntToStringStripped(n);
    ParseSignedIntToString(n);
  }
}
