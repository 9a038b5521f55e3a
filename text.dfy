/** The parts of Go's `strings`, `strconv` and `unicode` packages the importer relies on,
    written out over `seq<char>` (one `char` per Unicode code point). */
module Text {
  import opened Wrappers

  /** `unicode.IsSpace`: the Latin-1 spaces and the Unicode White_Space code points. */
  predicate IsSpace(c: char) {
    c == ' ' || c == '\t' || c == '\n' || c == '\r' || c == '\U{000B}' || c == '\U{000C}'
    || c == '\U{0085}' || c == '\U{00A0}' || c == '\U{1680}'
    || ('\U{2000}' <= c <= '\U{200A}')
    || c == '\U{2028}' || c == '\U{2029}' || c == '\U{202F}' || c == '\U{205F}' || c == '\U{3000}'
  }

  /** True when every character of `s` is white space (so `strings.TrimSpace(s) == ""`). */
  predicate IsBlank(s: string) {
    forall i :: 0 <= i < |s| ==> IsSpace(s[i])
  }

  /** Drops leading white space. */
  function TrimLeft(s: string): string {
    if |s| > 0 && IsSpace(s[0]) then TrimLeft(s[1..]) else s
  }

  /** Left trimming drops a white-space prefix and stops at the first other character. */
  lemma {:induction false} TrimLeftFacts(s: string)
    ensures var r := TrimLeft(s);
      |r| <= |s| && r == s[|s| - |r|..] && (r != [] ==> !IsSpace(r[0]))
      && forall i :: 0 <= i < |s| - |r| ==> IsSpace(s[i])
  {
    if |s| > 0 && IsSpace(s[0]) {
      TrimLeftFacts(s[1..]);
    }
  }

  /** Drops trailing white space. */
  function TrimRight(s: string): string {
    if |s| > 0 && IsSpace(s[|s| - 1]) then TrimRight(s[..|s| - 1]) else s
  }

  /** Right trimming drops a white-space suffix and stops at the last other character. */
  lemma {:induction false} TrimRightFacts(s: string)
    ensures var r := TrimRight(s);
      |r| <= |s| && r == s[..|r|] && (r != [] ==> !IsSpace(r[|r| - 1]))
      && forall i :: |r| <= i < |s| ==> IsSpace(s[i])
  {
    if |s| > 0 && IsSpace(s[|s| - 1]) {
      TrimRightFacts(s[..|s| - 1]);
    }
  }

  /** `strings.TrimSpace`. */
  function TrimSpace(s: string): string {
    TrimRight(TrimLeft(s))
  }

  /** Trimming shortens, and leaves no white space at either end. */
  lemma TrimSpaceFacts(s: string)
    ensures var r := TrimSpace(s);
      |r| <= |s| && (r != [] ==> !IsSpace(r[0]) && !IsSpace(r[|r| - 1]))
  {
    TrimLeftFacts(s);
    TrimRightFacts(TrimLeft(s));
  }

  /** A trimmed string is empty exactly when the input was all white space. */
  lemma {:induction false} TrimSpaceEmpty(s: string)
    ensures TrimSpace(s) == "" <==> IsBlank(s)
  {
    var l := TrimLeft(s);
    TrimLeftFacts(s);
    TrimRightFacts(l);
    assert forall i :: |s| - |l| <= i < |s| ==> s[i] == l[i - (|s| - |l|)];
  }

  /** `strings.TrimSpace` is idempotent. */
  lemma {:induction false} TrimSpaceIdempotent(s: string)
    ensures TrimSpace(TrimSpace(s)) == TrimSpace(s)
  {
    var t := TrimSpace(s);
    TrimSpaceFacts(s);
    if t != [] {
      assert TrimLeft(t) == t;
      assert TrimRight(t) == t;
    }
  }

  /** Trimming a string whose ends are not white space changes nothing. */
  lemma {:induction false} TrimSpaceOfTrimmedEnds(s: string)
    requires s != []
    requires !IsSpace(s[0]) && !IsSpace(s[|s| - 1])
    ensures TrimSpace(s) == s
  {
    assert TrimLeft(s) == s;
  }

  /** `strings.ReplaceAll(s, string(c), "")`. */
  function RemoveChar(s: string, c: char): (r: string)
    ensures forall i :: 0 <= i < |r| ==> r[i] != c
    ensures |r| <= |s|
  {
    if s == [] then ""
    else if s[0] == c then RemoveChar(s[1..], c)
    else [s[0]] + RemoveChar(s[1..], c)
  }

  /** `strings.ReplaceAll(s, string(a), string(b))`. */
  function ReplaceChar(s: string, a: char, b: char): (r: string)
    ensures |r| == |s|
    ensures forall i :: 0 <= i < |s| ==> r[i] == (if s[i] == a then b else s[i])
  {
    if s == [] then ""
    else [if s[0] == a then b else s[0]] + ReplaceChar(s[1..], a, b)
  }

  /** `unicode.ToLower` on the capital letters of Basic Latin, Latin-1, Latin Extended-A and
      Cyrillic with its supplement (U+0400-U+052F, which holds the Kazakh letters);
      every other character is kept. */
  function LowerChar(c: char): char {
    var n := c as int;
    if 'A' <= c <= 'Z' then (n + 32) as char
    else if 0xC0 <= n <= 0xDE && n != 0xD7 then (n + 32) as char
    else if n == 0x130 then 'i'
    else if n == 0x178 then '\U{00FF}'
    else if (0x100 <= n <= 0x12F || 0x132 <= n <= 0x137 || 0x14A <= n <= 0x177) && n % 2 == 0 then (n + 1) as char
    else if (0x139 <= n <= 0x148 || 0x179 <= n <= 0x17E) && n % 2 == 1 then (n + 1) as char
    else if 0x400 <= n <= 0x40F then (n + 80) as char
    else if 0x410 <= n <= 0x42F then (n + 32) as char
    else if (0x460 <= n <= 0x481 || 0x48A <= n <= 0x4BF || 0x4D0 <= n <= 0x52F) && n % 2 == 0 then (n + 1) as char
    else if n == 0x4C0 then '\U{04CF}'
    else if 0x4C1 <= n <= 0x4CE && n % 2 == 1 then (n + 1) as char
    else c
  }

  /** `strings.ToLower`, character by character. */
  function ToLower(s: string): (r: string)
    ensures |r| == |s|
    ensures forall i :: 0 <= i < |s| ==> r[i] == LowerChar(s[i])
  {
    if s == [] then "" else [LowerChar(s[0])] + ToLower(s[1..])
  }

  /** The Kazakh capitals and a Latin-1 capital fold to their small letters, and the
      multiplication sign, which has no case, is kept. */
  lemma LowerCharKazakh()
    ensures LowerChar('\U{04D8}') == '\U{04D9}' && LowerChar('\U{0492}') == '\U{0493}'
    ensures LowerChar('\U{049A}') == '\U{049B}' && LowerChar('\U{04A2}') == '\U{04A3}'
    ensures LowerChar('\U{04E8}') == '\U{04E9}' && LowerChar('\U{04B0}') == '\U{04B1}'
    ensures LowerChar('\U{04AE}') == '\U{04AF}' && LowerChar('\U{04BA}') == '\U{04BB}'
    ensures LowerChar('\U{00C0}') == '\U{00E0}' && LowerChar('\U{00D7}') == '\U{00D7}'
  {
  }

  /** `strings.HasPrefix`. */
  predicate HasPrefix(s: string, p: string) {
    |p| <= |s| && s[..|p|] == p
  }

  /** `strings.TrimPrefix`. */
  function TrimPrefix(s: string, p: string): (r: string)
    ensures HasPrefix(s, p) ==> s == p + r
    ensures !HasPrefix(s, p) ==> r == s
  {
    if HasPrefix(s, p) then s[|p|..] else s
  }

  /** The index of the first occurrence of `c` in `s`. */
  function IndexOf(s: string, c: char): (r: Option<nat>)
    ensures r.Some? ==> r.value < |s| && s[r.value] == c && forall i :: 0 <= i < r.value ==> s[i] != c
    ensures r.None? ==> forall i :: 0 <= i < |s| ==> s[i] != c
  {
    if s == [] then None
    else if s[0] == c then Some(0)
    else match IndexOf(s[1..], c)
      case None => None
      case Some(k) => Some(k + 1)
  }

  /** `strings.Split(s, string(sep))`: never empty, and gluing the pieces back gives `s`. */
  function Split(s: string, sep: char): (r: seq<string>)
    ensures |r| >= 1
    ensures forall k, i :: 0 <= k < |r| && 0 <= i < |r[k]| ==> r[k][i] != sep
  {
    if s == [] then [""]
    else if s[0] == sep then [""] + Split(s[1..], sep)
    else var rest := Split(s[1..], sep); [[s[0]] + rest[0]] + rest[1..]
  }

  /** `strings.Join(parts, sep)`. */
  function Join(parts: seq<string>, sep: string): string {
    if parts == [] then ""
    else if |parts| == 1 then parts[0]
    else parts[0] + sep + Join(parts[1..], sep)
  }

  /** Splitting a joined sequence of separator-free pieces gives back the pieces. */
  lemma {:induction false} SplitJoin(parts: seq<string>, sep: char)
    requires parts != []
    requires forall k, i :: 0 <= k < |parts| && 0 <= i < |parts[k]| ==> parts[k][i] != sep
    ensures Split(Join(parts, [sep]), sep) == parts
  {
    if |parts| == 1 {
      SplitNoSep(parts[0], sep);
    } else {
      var tail := parts[1..];
      forall k, i | 0 <= k < |tail| && 0 <= i < |tail[k]|
        ensures tail[k][i] != sep
      {
        assert tail[k] == parts[k + 1];
      }
      SplitJoin(tail, sep);
      assert Join(parts, [sep]) == parts[0] + [sep] + Join(tail, [sep]);
      SplitConcat(parts[0], Join(tail, [sep]), sep);
      assert [parts[0]] + tail == parts;
    }
  }

  /** A piece without the separator splits to itself. */
  lemma {:induction false} SplitNoSep(s: string, sep: char)
    requires forall i :: 0 <= i < |s| ==> s[i] != sep
    ensures Split(s, sep) == [s]
  {
    if s != [] {
      SplitNoSep(s[1..], sep);
      assert [s[0]] + s[1..] == s;
    }
  }

  /** Splitting `a + sep + b` where `a` has no separator. */
  lemma {:induction false} SplitConcat(a: string, b: string, sep: char)
    requires forall i :: 0 <= i < |a| ==> a[i] != sep
    ensures Split(a + [sep] + b, sep) == [a] + Split(b, sep)
  {
    if a == [] {
      assert a + [sep] + b == [sep] + b;
      assert ([sep] + b)[1..] == b;
    } else {
      SplitConcat(a[1..], b, sep);
      assert (a + [sep] + b)[1..] == a[1..] + [sep] + b;
      assert [a[0]] + a[1..] == a;
    }
  }

  /** The longest prefix of `s` with no separator. */
  function Word(s: string, isSep: char -> bool): (w: string)
    ensures |w| <= |s| && w == s[..|w|]
    ensures forall i :: 0 <= i < |w| ==> !isSep(w[i])
    ensures |w| < |s| ==> isSep(s[|w|])
  {
    if s == [] || isSep(s[0]) then "" else [s[0]] + Word(s[1..], isSep)
  }

  /** `strings.FieldsFunc`: the maximal runs of non-separators, in order, none empty. */
  function FieldsFunc(s: string, isSep: char -> bool): (r: seq<string>)
    ensures forall k :: 0 <= k < |r| ==> r[k] != ""
    ensures forall k, i :: 0 <= k < |r| && 0 <= i < |r[k]| ==> !isSep(r[k][i])
    decreases |s|
  {
    if s == [] then []
    else if isSep(s[0]) then FieldsFunc(s[1..], isSep)
    else var w := Word(s, isSep); [w] + FieldsFunc(s[|w|..], isSep)
  }

  /** `strings.Fields`: the words of `s` between runs of white space. */
  function Fields(s: string): (r: seq<string>)
    ensures forall k :: 0 <= k < |r| ==> r[k] != ""
    ensures forall k, i :: 0 <= k < |r| && 0 <= i < |r[k]| ==> !IsSpace(r[k][i])
  {
    FieldsFunc(s, IsSpace)
  }

  /** Leading white space never changes the fields. */
  lemma {:induction false} FieldsTrimLeft(s: string)
    ensures Fields(TrimLeft(s)) == Fields(s)
  {
    if |s| > 0 && IsSpace(s[0]) {
      FieldsTrimLeft(s[1..]);
    }
  }

  /** Fields of `s` followed by white space are the fields of `s`. */
  lemma {:induction false} FieldsSpaceSuffix(s: string, t: string)
    requires IsBlank(t)
    ensures FieldsFunc(s + t, IsSpace) == FieldsFunc(s, IsSpace)
    decreases |s|
  {
    if s == [] {
      assert s + t == t;
      FieldsBlank(t);
    } else if IsSpace(s[0]) {
      assert (s + t)[1..] == s[1..] + t;
      FieldsSpaceSuffix(s[1..], t);
    } else {
      var w := Word(s, IsSpace);
      WordSpaceSuffix(s, t);
      assert (s + t)[|w|..] == s[|w|..] + t;
      FieldsSpaceSuffix(s[|w|..], t);
    }
  }

  /** Appending white space does not lengthen the first word. */
  lemma {:induction false} WordSpaceSuffix(s: string, t: string)
    requires IsBlank(t)
    ensures Word(s + t, IsSpace) == Word(s, IsSpace)
  {
    if s == [] {
      assert s + t == t;
    } else if !IsSpace(s[0]) {
      assert (s + t)[1..] == s[1..] + t;
      WordSpaceSuffix(s[1..], t);
    }
  }

  /** An all-blank string has no fields. */
  lemma {:induction false} FieldsBlank(t: string)
    requires IsBlank(t)
    ensures FieldsFunc(t, IsSpace) == []
  {
    if t != [] {
      FieldsBlank(t[1..]);
    }
  }

  /** Trimming never changes the fields. */
  lemma FieldsTrimSpace(s: string)
    ensures Fields(TrimSpace(s)) == Fields(s)
  {
    var l := TrimLeft(s);
    var r := TrimRight(l);
    TrimLeftFacts(s);
    TrimRightFacts(l);
    assert l == r + l[|r|..];
    FieldsSpaceSuffix(r, l[|r|..]);
    FieldsTrimLeft(s);
  }

  /** An ASCII decimal digit. */
  predicate IsDigit(c: char) {
    '0' <= c <= '9'
  }

  /** The digits of `s`, in order (what `regexp.MustCompile("\\D+").ReplaceAllString(s, "")` leaves). */
  function Digits(s: string): (r: string)
    ensures |r| <= |s|
    ensures forall i :: 0 <= i < |r| ==> IsDigit(r[i])
  {
    if s == [] then ""
    else if IsDigit(s[0]) then [s[0]] + Digits(s[1..])
    else Digits(s[1..])
  }

  /** The digits of a concatenation are the concatenated digits. */
  lemma {:induction false} DigitsConcat(a: string, b: string)
    ensures Digits(a + b) == Digits(a) + Digits(b)
  {
    if a != [] {
      assert (a + b)[1..] == a[1..] + b;
      DigitsConcat(a[1..], b);
    } else {
      assert a + b == b;
    }
  }

  /** White space carries no digits, so trimming keeps them all. */
  lemma DigitsTrimSpace(s: string)
    ensures Digits(TrimSpace(s)) == Digits(s)
  {
    DigitsTrimLeft(s);
    DigitsTrimRight(TrimLeft(s));
  }

  /** Left trimming drops no digit. */
  lemma {:induction false} DigitsTrimLeft(s: string)
    ensures Digits(TrimLeft(s)) == Digits(s)
  {
    if |s| > 0 && IsSpace(s[0]) {
      assert !IsDigit(s[0]);
      DigitsTrimLeft(s[1..]);
    }
  }

  /** Right trimming drops no digit. */
  lemma {:induction false} DigitsTrimRight(s: string)
    ensures Digits(TrimRight(s)) == Digits(s)
  {
    if |s| > 0 && IsSpace(s[|s| - 1]) {
      var init := s[..|s| - 1];
      var last := s[|s| - 1];
      DigitsTrimRight(init);
      assert s == init + [last];
      DigitsConcat(init, [last]);
      assert !IsDigit(last);
      assert [last][1..] == [];
    }
  }

  /** The character of decimal digit `d`. */
  function DigitChar(d: nat): char
    requires d < 10
  {
    ('0' as int + d) as char
  }

  /** The value of a decimal digit character. */
  function DigitValue(c: char): nat
    requires IsDigit(c)
  {
    c as int - '0' as int
  }

  /** `strconv.Itoa`/`strconv.FormatInt(n, 10)` of a natural number. */
  function NatToString(n: nat): (r: string)
    ensures r != [] && forall i :: 0 <= i < |r| ==> IsDigit(r[i])
    ensures |r| > 1 ==> r[0] != '0'
  {
    if n < 10 then [DigitChar(n)] else NatToString(n / 10) + [DigitChar(n % 10)]
  }

  /** `strconv.FormatInt(n, 10)`. */
  function IntToString(n: int): string {
    if n < 0 then "-" + NatToString(-n) else NatToString(n)
  }

  /** The value of a non-empty string of decimal digits. */
  function DigitsValue(s: string): nat
    requires forall i :: 0 <= i < |s| ==> IsDigit(s[i])
  {
    if s == [] then 0 else DigitsValue(s[..|s| - 1]) * 10 + DigitValue(s[|s| - 1])
  }

  /** Reading back a printed natural number gives the number. */
  lemma {:induction false} NatToStringRoundTrip(n: nat)
    ensures DigitsValue(NatToString(n)) == n
  {
    if n >= 10 {
      var s := NatToString(n);
      NatToStringRoundTrip(n / 10);
      assert s[..|s| - 1] == NatToString(n / 10);
    }
  }

  /** Printing is injective: different ids give different decimal strings. */
  lemma NatToStringInjective(a: nat, b: nat)
    requires NatToString(a) == NatToString(b)
    ensures a == b
  {
    NatToStringRoundTrip(a);
    NatToStringRoundTrip(b);
  }

  const MinInt64: int := -0x8000_0000_0000_0000
  const MaxInt64: int := 0x7FFF_FFFF_FFFF_FFFF

  /** `strconv.ParseInt(s, 10, 64)`: an optional sign, at least one digit, nothing else,
      and a value that fits in a signed 64-bit integer. */
  function ParseInt64(s: string): (r: Option<int>)
    ensures r.Some? ==> MinInt64 <= r.value <= MaxInt64
    ensures r.Some? ==> s != [] && (IsDigit(s[0]) || s[0] == '+' || s[0] == '-')
  {
    var neg := |s| > 0 && s[0] == '-';
    var body := if |s| > 0 && (s[0] == '+' || s[0] == '-') then s[1..] else s;
    if body == [] || !(forall i :: 0 <= i < |body| ==> IsDigit(body[i])) then None
    else
      var v := if neg then -(DigitsValue(body) as int) else DigitsValue(body) as int;
      if MinInt64 <= v <= MaxInt64 then Some(v) else None
  }

  /** A printed id in the signed 64-bit range parses back to itself. */
  lemma ParseInt64OfPrinted(n: nat)
    requires n <= MaxInt64
    ensures ParseInt64(NatToString(n)) == Some(n)
  {
    NatToStringRoundTrip(n);
  }

  /** The number of bytes of the UTF-8 encoding of `s` (Go's `len` on a string). */
  function Utf8Len(s: string): (n: nat)
    ensures n >= |s|
  {
    if s == [] then 0
    else
      var c := s[0] as int;
      (if c < 0x80 then 1 else if c < 0x800 then 2 else if c < 0x10000 then 3 else 4) + Utf8Len(s[1..])
  }
}
