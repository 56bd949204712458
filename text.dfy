/**
 * The Kotlin string operations the form handlers are built from: `isBlank`,
 * `trim`, `ifBlank { null }`, `split(",")`, `uppercase`, `equals(ignoreCase)`,
 * `filter { it.isDigit() }` and `toIntOrNull`.
 */
module Text {
  import opened Wrappers

  /** Kotlin's `Char.isWhitespace()`: Java whitespace together with the Unicode space separators. */
  predicate IsWhitespace(c: char) {
    || c == '\t' || c == '\n' || c == '\U{B}' || c == '\U{C}' || c == '\r'
    || ('\U{1C}' <= c <= '\U{1F}')
    || c == ' ' || c == '\U{A0}' || c == '\U{1680}'
    || ('\U{2000}' <= c <= '\U{200A}')
    || c == '\U{2028}' || c == '\U{2029}' || c == '\U{202F}' || c == '\U{205F}' || c == '\U{3000}'
  }

  /** `CharSequence.isBlank()`: empty, or whitespace only. */
  predicate IsBlank(s: string) {
    forall i | 0 <= i < |s| :: IsWhitespace(s[i])
  }

  /** `String?.isNullOrBlank()`. */
  predicate IsNullOrBlank(s: Option<string>) {
    s.None? || IsBlank(s.value)
  }

  /** Drops the leading whitespace. */
  function TrimStart(s: string): (r: string)
    ensures |r| <= |s|
    ensures r == [] || !IsWhitespace(r[0])
  {
    if |s| > 0 && IsWhitespace(s[0]) then TrimStart(s[1..]) else s
  }

  /** What `TrimStart` drops is a blank prefix. */
  lemma {:induction false} TrimStartDrops(s: string)
    ensures TrimStart(s) == s[|s| - |TrimStart(s)|..] && IsBlank(s[..|s| - |TrimStart(s)|])
    decreases |s|
  {
    if |s| > 0 && IsWhitespace(s[0]) {
      TrimStartDrops(s[1..]);
      var i := |s| - |TrimStart(s)|;
      assert s[1..][i - 1..] == s[i..];
      assert forall k | 0 <= k < i :: s[..i][k] == if k == 0 then s[0] else s[1..][..i - 1][k - 1];
    }
  }

  /** Drops the trailing whitespace. */
  function TrimEnd(s: string): (r: string)
    ensures |r| <= |s|
    ensures r == [] || !IsWhitespace(r[|r| - 1])
  {
    if |s| > 0 && IsWhitespace(s[|s| - 1]) then TrimEnd(s[..|s| - 1]) else s
  }

  /** What `TrimEnd` drops is a blank suffix. */
  lemma {:induction false} TrimEndDrops(s: string)
    ensures TrimEnd(s) == s[..|TrimEnd(s)|] && IsBlank(s[|TrimEnd(s)|..])
    decreases |s|
  {
    if |s| > 0 && IsWhitespace(s[|s| - 1]) {
      TrimEndDrops(s[..|s| - 1]);
      var j := |TrimEnd(s)|;
      assert s[..|s| - 1][..j] == s[..j];
      assert forall k | j <= k < |s| :: s[k] == if k == |s| - 1 then s[|s| - 1] else s[..|s| - 1][j..][k - j];
    }
  }

  /**
   * `String.trim()`: drops whitespace at both ends. The result is empty
   * exactly when `s` is blank, and otherwise starts and ends with a visible
   * character.
   */
  function Trim(s: string): (r: string)
    ensures |r| <= |s|
    ensures r == [] || (!IsWhitespace(r[0]) && !IsWhitespace(r[|r| - 1]))
    ensures r == [] <==> IsBlank(s)
  {
    TrimStartDrops(s);
    TrimEndDrops(TrimStart(s));
    var t := TrimStart(s);
    assert s == s[..|s| - |t|] + t;
    TrimEnd(t)
  }

  /** Trim takes an infix of `s` and drops only whitespace around it. */
  lemma TrimIsInfix(s: string) returns (i: nat, j: nat)
    ensures i <= j <= |s| && Trim(s) == s[i..j]
    ensures IsBlank(s[..i]) && IsBlank(s[j..])
  {
    var t := TrimStart(s);
    TrimStartDrops(s);
    TrimEndDrops(t);
    var k := |TrimEnd(t)|;
    i, j := |s| - |t|, |s| - |t| + k;
    assert Trim(s) == TrimEnd(t) == t[..k];
    assert t == s[i..];
    assert s[i..j] == t[..k];
    assert s[j..] == t[k..];
  }

  /** A character that does not occur in `s` does not occur in `Trim(s)`. */
  lemma TrimAvoids(s: string, c: char)
    requires c !in s
    ensures c !in Trim(s)
  {
    var i, j := TrimIsInfix(s);
  }

  lemma TrimIdempotent(s: string)
    ensures Trim(Trim(s)) == Trim(s)
  {
  }

  /** `ifBlank { null }`: a blank text is sent as `null`. */
  function IfBlankNull(s: string): (r: Option<string>)
    ensures r.None? <==> IsBlank(s)
    ensures r.Some? ==> r.value == s
  {
    if IsBlank(s) then None else Some(s)
  }

  /**
   * `trim().ifBlank { null }`: `null` exactly when the field is blank,
   * otherwise the trimmed text, which starts and ends with a visible character.
   */
  function TrimOrNull(s: string): (r: Option<string>)
    ensures r.None? <==> IsBlank(s)
    ensures r.Some? ==> r.value == Trim(s) && r.value != []
    ensures r.Some? ==> !IsWhitespace(r.value[0]) && !IsWhitespace(r.value[|r.value| - 1])
  {
    IfBlankNull(Trim(s))
  }

  /** `split(sep)` with a one-character delimiter: every piece, empty ones included. */
  function Split(s: string, sep: char): (parts: seq<string>)
    ensures |parts| >= 1
    ensures forall k | 0 <= k < |parts| :: sep !in parts[k]
  {
    if |s| == 0 then [""]
    else
      var rest := Split(s[1..], sep);
      if s[0] == sep then [""] + rest
      else [[s[0]] + rest[0]] + rest[1..]
  }

  /** `joinToString(sep)`: the reference inverse of Split. */
  function Join(parts: seq<string>, sep: char): string
  {
    if |parts| == 0 then ""
    else if |parts| == 1 then parts[0]
    else parts[0] + [sep] + Join(parts[1..], sep)
  }

  /** Splitting loses nothing: joining the pieces gives back the text. */
  lemma {:induction false} JoinSplit(s: string, sep: char)
    ensures Join(Split(s, sep), sep) == s
    decreases |s|
  {
    if |s| > 0 {
      var rest := Split(s[1..], sep);
      JoinSplit(s[1..], sep);
      if s[0] == sep {
        assert ([""] + rest)[1..] == rest;
        assert s == [sep] + s[1..];
      } else if |rest| == 1 {
        assert s == [s[0]] + s[1..];
      } else {
        var parts := [[s[0]] + rest[0]] + rest[1..];
        assert parts[1..] == rest[1..];
        assert Join(rest, sep) == rest[0] + [sep] + Join(rest[1..], sep);
        assert s == [s[0]] + s[1..];
      }
    }
  }

  lemma {:induction false} SplitPrefix(a: string, rest: string, sep: char)
    requires sep !in a
    ensures Split(a + rest, sep) == [a + Split(rest, sep)[0]] + Split(rest, sep)[1..]
    decreases |a|
  {
    var r := Split(rest, sep);
    if a == [] {
      assert a + rest == rest;
      assert a + r[0] == r[0];
      assert r == [r[0]] + r[1..];
    } else {
      SplitPrefix(a[1..], rest, sep);
      assert (a + rest)[0] == a[0] && (a + rest)[1..] == a[1..] + rest;
      assert [a[0]] + (a[1..] + r[0]) == a + r[0];
    }
  }

  /** Joining pieces that hold no delimiter and splitting again gives back the pieces. */
  lemma {:induction false} SplitJoin(parts: seq<string>, sep: char)
    requires |parts| >= 1
    requires forall k | 0 <= k < |parts| :: sep !in parts[k]
    ensures Split(Join(parts, sep), sep) == parts
    decreases |parts|
  {
    if |parts| == 1 {
      SplitPrefix(parts[0], "", sep);
      assert parts[0] + "" == parts[0];
    } else {
      var tail := Join(parts[1..], sep);
      SplitJoin(parts[1..], sep);
      SplitPrefix(parts[0], [sep] + tail, sep);
      assert ([sep] + tail)[0] == sep && ([sep] + tail)[1..] == tail;
      assert Split([sep] + tail, sep) == [""] + parts[1..];
      assert parts[0] + [sep] + tail == parts[0] + ([sep] + tail);
      assert parts[0] + "" == parts[0];
      assert parts == [parts[0]] + parts[1..];
    }
  }

  /** Trimming twice changes nothing more, for every piece of a list. */
  lemma TrimIdempotentAll(parts: seq<string>)
    ensures forall k | 0 <= k < |parts| :: Trim(Trim(parts[k])) == Trim(parts[k])
  {
    forall k | 0 <= k < |parts| {
      TrimIdempotent(parts[k]);
    }
  }

  /** `map { it.trim() }`: each piece trimmed in place, and trimming again changes nothing. */
  function TrimEach(parts: seq<string>): (r: seq<string>)
    ensures |r| == |parts|
    ensures forall k | 0 <= k < |r| :: r[k] == Trim(parts[k])
    ensures forall k | 0 <= k < |r| :: Trim(r[k]) == r[k]
  {
    TrimIdempotentAll(parts);
    seq(|parts|, k requires 0 <= k < |parts| => Trim(parts[k]))
  }

  /** `filter { it.isNotBlank() }`: the kept pieces are pieces of `xs`, none of them blank. */
  function NonBlank(xs: seq<string>): (r: seq<string>)
    ensures |r| <= |xs|
    ensures forall k | 0 <= k < |r| :: !IsBlank(r[k]) && r[k] in xs
  {
    if xs == [] then []
    else (if IsBlank(xs[0]) then [] else [xs[0]]) + NonBlank(xs[1..])
  }

  /** The filter drops only blank pieces: every piece that is not blank is kept. */
  lemma {:induction false} NonBlankComplete(xs: seq<string>, j: nat)
    requires j < |xs| && !IsBlank(xs[j])
    ensures xs[j] in NonBlank(xs)
    decreases j
  {
    if j > 0 {
      NonBlankComplete(xs[1..], j - 1);
      assert xs[1..][j - 1] == xs[j];
    }
  }

  /** Only blank pieces: nothing is kept. */
  lemma {:induction false} NonBlankOfBlank(xs: seq<string>)
    requires forall j | 0 <= j < |xs| :: IsBlank(xs[j])
    ensures NonBlank(xs) == []
    decreases |xs|
  {
    if xs != [] {
      NonBlankOfBlank(xs[1..]);
    }
  }

  /** The filter keeps the order of the pieces: it distributes over concatenation. */
  lemma {:induction false} NonBlankAppend(a: seq<string>, b: seq<string>)
    ensures NonBlank(a + b) == NonBlank(a) + NonBlank(b)
    decreases |a|
  {
    if a != [] {
      assert (a + b)[1..] == a[1..] + b;
      var h := if IsBlank(a[0]) then [] else [a[0]];
      NonBlankAppend(a[1..], b);
      assert h + (NonBlank(a[1..]) + NonBlank(b)) == (h + NonBlank(a[1..])) + NonBlank(b);
    } else {
      assert a + b == b;
    }
  }

  /** Pieces none of which is blank pass through unchanged. */
  lemma {:induction false} NonBlankKeeps(xs: seq<string>)
    requires forall k | 0 <= k < |xs| :: !IsBlank(xs[k])
    ensures NonBlank(xs) == xs
    decreases |xs|
  {
    if xs != [] {
      NonBlankKeeps(xs[1..]);
      assert xs == [xs[0]] + xs[1..];
    }
  }

  /**
   * A comma-separated URL field, `split(",").map { it.trim() }.filter { it.isNotBlank() }`:
   * every URL is trimmed, not blank and free of commas.
   */
  function ParseUrlList(s: string): (urls: seq<string>)
    ensures forall k | 0 <= k < |urls| :: !IsBlank(urls[k]) && Trim(urls[k]) == urls[k]
    ensures forall k | 0 <= k < |urls| :: ',' !in urls[k]
  {
    var parts := Split(s, ',');
    KeptPieces(parts, ',');
    NonBlank(TrimEach(parts))
  }

  /** The kept pieces are trimmed pieces, so they avoid what every piece avoids. */
  lemma KeptPieces(parts: seq<string>, c: char)
    requires forall j | 0 <= j < |parts| :: c !in parts[j]
    ensures forall k | 0 <= k < |NonBlank(TrimEach(parts))| ::
      Trim(NonBlank(TrimEach(parts))[k]) == NonBlank(TrimEach(parts))[k] && c !in NonBlank(TrimEach(parts))[k]
  {
    var t := TrimEach(parts);
    var r := NonBlank(t);
    forall k | 0 <= k < |r| ensures Trim(r[k]) == r[k] && c !in r[k] {
      var j :| 0 <= j < |t| && t[j] == r[k];
      assert t[j] == Trim(parts[j]);
      TrimAvoids(parts[j], c);
    }
  }

  /** Every non-blank piece of the field is kept, trimmed. */
  lemma ParseUrlListComplete(s: string, j: nat)
    requires j < |Split(s, ',')| && !IsBlank(Split(s, ',')[j])
    ensures Trim(Split(s, ',')[j]) in ParseUrlList(s)
  {
    NonBlankComplete(TrimEach(Split(s, ',')), j);
  }

  /** Typing a list of URLs separated by commas gives back exactly that list. */
  lemma ParseUrlListRoundTrip(urls: seq<string>)
    requires forall k | 0 <= k < |urls| :: !IsBlank(urls[k]) && Trim(urls[k]) == urls[k] && ',' !in urls[k]
    ensures ParseUrlList(Join(urls, ',')) == urls
  {
    if urls == [] {
      ParseUrlListOfBlank("");
    } else {
      SplitJoin(urls, ',');
      assert TrimEach(urls) == urls;
      NonBlankKeeps(urls);
    }
  }

  lemma {:induction false} SplitOfBlank(s: string, sep: char)
    requires IsBlank(s) && !IsWhitespace(sep)
    ensures forall k | 0 <= k < |Split(s, sep)| :: IsBlank(Split(s, sep)[k])
    decreases |s|
  {
    if |s| > 0 {
      SplitOfBlank(s[1..], sep);
    }
  }

  /** A blank URL field gives the empty list. */
  lemma ParseUrlListOfBlank(s: string)
    requires IsBlank(s)
    ensures ParseUrlList(s) == []
  {
    var parts := Split(s, ',');
    SplitOfBlank(s, ',');
    assert forall k | 0 <= k < |parts| :: IsBlank(TrimEach(parts)[k]);
    NonBlankOfBlank(TrimEach(parts));
  }

  /** `Char.uppercaseChar()` on the ASCII letters. */
  function UpperChar(c: char): char {
    if 'a' <= c <= 'z' then (c as int - 32) as char else c
  }

  /** `String.uppercase()`, one character at a time. */
  function Uppercase(s: string): (r: string)
    ensures |r| == |s|
    ensures forall i | 0 <= i < |s| :: r[i] == UpperChar(s[i])
  {
    if s == [] then [] else [UpperChar(s[0])] + Uppercase(s[1..])
  }

  /** Uppercasing twice changes nothing more. */
  lemma UppercaseIdempotent(s: string)
    ensures Uppercase(Uppercase(s)) == Uppercase(s)
  {
    var u := Uppercase(s);
    assert forall i | 0 <= i < |u| :: Uppercase(u)[i] == u[i];
  }

  /** No lower-case ASCII letter: uppercasing changes nothing. */
  predicate IsUppercase(s: string) {
    forall i | 0 <= i < |s| :: UpperChar(s[i]) == s[i]
  }

  /** What `uppercase()` returns is upper-case, and an upper-case text is its own uppercase. */
  lemma UppercaseIsUppercase(s: string)
    ensures IsUppercase(Uppercase(s))
    ensures IsUppercase(s) ==> Uppercase(s) == s
  {
    UppercaseIdempotent(s);
  }

  /** Trimming keeps a text upper-case. */
  lemma TrimKeepsUppercase(s: string)
    requires IsUppercase(s)
    ensures IsUppercase(Trim(s))
  {
    var i, j := TrimIsInfix(s);
    assert forall k | 0 <= k < |Trim(s)| :: Trim(s)[k] == s[i + k];
  }

  /** `a.equals(b, ignoreCase = true)`. */
  predicate EqualsIgnoreCase(a: string, b: string) {
    |a| == |b| && forall i | 0 <= i < |a| :: UpperChar(a[i]) == UpperChar(b[i])
  }

  /** For an upper-case constant `t`, `s.uppercase() == t` exactly when `s` equals `t` ignoring case. */
  lemma UppercaseMatchesIgnoreCase(s: string, t: string)
    requires Uppercase(t) == t
    ensures Uppercase(s) == t <==> EqualsIgnoreCase(s, t)
  {
    if EqualsIgnoreCase(s, t) {
      assert forall i | 0 <= i < |s| :: Uppercase(s)[i] == t[i] by {
        forall i | 0 <= i < |s| ensures Uppercase(s)[i] == t[i] {
          assert Uppercase(t)[i] == UpperChar(t[i]);
        }
      }
    }
  }

  /** `Char.isDigit()` on the ASCII digits. */
  predicate IsDigit(c: char) {
    '0' <= c <= '9'
  }

  predicate AllDigits(s: string) {
    forall i | 0 <= i < |s| :: IsDigit(s[i])
  }

  /**
   * `filter { it.isDigit() }`: the digits of `s`; a digits-only text is kept
   * as it is, and a text without digits gives the empty text.
   */
  function FilterDigits(s: string): (r: string)
    ensures AllDigits(r)
    ensures |r| <= |s|
    ensures AllDigits(s) ==> r == s
    ensures (forall i | 0 <= i < |s| :: !IsDigit(s[i])) ==> r == []
  {
    if s == [] then [] else (if IsDigit(s[0]) then [s[0]] else []) + FilterDigits(s[1..])
  }

  /**
   * One typed character: a digit is kept and anything else is dropped.
   * Together with `FilterDigitsAppend` this fixes the filter on every text.
   */
  lemma FilterDigitsOfChar(c: char)
    ensures FilterDigits([c]) == if IsDigit(c) then [c] else []
  {
    assert [c][1..] == [];
  }

  /** The filter keeps the digits in the order typed, across any split of the text. */
  lemma {:induction false} FilterDigitsAppend(a: string, b: string)
    ensures FilterDigits(a + b) == FilterDigits(a) + FilterDigits(b)
    decreases |a|
  {
    if a != [] {
      FilterDigitsAppend(a[1..], b);
      assert (a + b)[0] == a[0] && (a + b)[1..] == a[1..] + b;
      var h := if IsDigit(a[0]) then [a[0]] else [];
      assert FilterDigits(a) == h + FilterDigits(a[1..]);
      assert FilterDigits(a + b) == h + (FilterDigits(a[1..]) + FilterDigits(b));
      assert h + (FilterDigits(a[1..]) + FilterDigits(b)) == (h + FilterDigits(a[1..])) + FilterDigits(b);
    } else {
      assert a + b == b;
    }
  }

  const IntMin: int := -0x8000_0000
  const IntMax: int := 0x7FFF_FFFF

  function DigitValue(c: char): nat
    requires IsDigit(c)
  {
    c as int - '0' as int
  }

  /** The value of a string of decimal digits, most significant first. */
  function DigitsValue(s: string): nat
    requires AllDigits(s)
    decreases |s|
  {
    if s == [] then 0 else 10 * DigitsValue(s[..|s| - 1]) + DigitValue(s[|s| - 1])
  }

  /**
   * `String.toIntOrNull()` in radix 10: an optional sign, at least one digit,
   * and `null` when the value does not fit a 32-bit Int.
   */
  function ToIntOrNull(s: string): (r: Option<int>)
    ensures r.Some? ==> IntMin <= r.value <= IntMax
    ensures r.Some? && s != [] && IsDigit(s[0]) ==> r.value >= 0
    ensures AllDigits(s) && s != [] && DigitsValue(s) <= IntMax ==> r == Some(DigitsValue(s))
    ensures AllDigits(s) && (s == [] || DigitsValue(s) > IntMax) ==> r.None?
  {
    if s == [] then None
    else
      var digits := if s[0] == '-' || s[0] == '+' then s[1..] else s;
      if digits == [] || !AllDigits(digits) then None
      else
        var v: int := if s[0] == '-' then 0 - DigitsValue(digits) else DigitsValue(digits);
        if IntMin <= v <= IntMax then Some(v) else None
  }

  /** The decimal text of a natural number, as a user would type it. */
  function DecimalText(n: nat): (s: string)
    ensures s != [] && AllDigits(s)
  {
    if n < 10 then [('0' as int + n) as char]
    else DecimalText(n / 10) + [('0' as int + n % 10) as char]
  }

  lemma {:induction false} DigitsValueOfDecimalText(n: nat)
    ensures DigitsValue(DecimalText(n)) == n
  {
    var s := DecimalText(n);
    if n >= 10 {
      DigitsValueOfDecimalText(n / 10);
      assert s[..|s| - 1] == DecimalText(n / 10);
    }
  }

  /** Typing the decimal text of any Int-sized count gives back that count. */
  lemma ToIntOrNullOfDecimalText(n: nat)
    requires n <= IntMax
    ensures ToIntOrNull(DecimalText(n)) == Some(n)
  {
    DigitsValueOfDecimalText(n);
  }

  /** The prefix of the account line every screen shows once an email is known. */
  const LoggedInPrefix := "Logged in as "

  /**
   * `if (userEmail.isNullOrBlank()) otherwise else "Logged in as $userEmail"`:
   * the email can be read back from the line exactly when there is one.
   */
  function LoggedInLine(userEmail: Option<string>, otherwise: string): (line: string)
    ensures IsNullOrBlank(userEmail) ==> line == otherwise
    ensures !IsNullOrBlank(userEmail) ==>
      |line| == |LoggedInPrefix| + |userEmail.value|
      && line[..|LoggedInPrefix|] == LoggedInPrefix && line[|LoggedInPrefix|..] == userEmail.value
  {
    if IsNullOrBlank(userEmail) then otherwise else LoggedInPrefix + userEmail.value
  }

  /**
   * Kotlin's `String.length`: the number of UTF-16 code units, two for a
   * character outside the Basic Multilingual Plane and one for any other.
   */
  function Utf16Length(s: string): (n: nat)
    ensures |s| <= n <= 2 * |s|
    ensures (forall i | 0 <= i < |s| :: s[i] as int <= 0xFFFF) ==> n == |s|
    decreases |s|
  {
    if s == [] then 0 else Utf16Length(s[..|s| - 1]) + (if s[|s| - 1] as int > 0xFFFF then 2 else 1)
  }

  /** Appending a character outside the Basic Multilingual Plane lengthens a text by two code units. */
  lemma Utf16LengthAppend(s: string, c: char)
    ensures Utf16Length(s + [c]) == Utf16Length(s) + (if c as int > 0xFFFF then 2 else 1)
  {
    assert (s + [c])[..|s + [c]| - 1] == s;
  }
}
