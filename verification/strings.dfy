/** Character classes and the string operations the upload service applies to
    file names, headers and generated keys.  A `char` here stands for one
    UTF-16 code unit of a JavaScript string. */
module Strings {
  import opened Wrappers

  /** The characters matched by JavaScript's `\s` and removed by
      `String.prototype.trim` (the two sets coincide). */
  predicate IsWhitespace(c: char) {
    || c == ' ' || c == '\t' || c == '\n' || c == '\r'
    || c == '\U{000B}' || c == '\U{000C}' || c == '\U{00A0}' || c == '\U{1680}'
    || ('\U{2000}' <= c <= '\U{200A}')
    || c == '\U{2028}' || c == '\U{2029}' || c == '\U{202F}' || c == '\U{205F}'
    || c == '\U{3000}' || c == '\U{FEFF}'
  }

  /** The class `[a-zA-Z0-9._-]` that object keys are restricted to. */
  predicate IsKeyChar(c: char) {
    || 'a' <= c <= 'z' || 'A' <= c <= 'Z' || '0' <= c <= '9'
    || c == '.' || c == '_' || c == '-'
  }

  predicate IsDigit(c: char) {
    '0' <= c <= '9'
  }

  /** Lower-case hexadecimal, as produced by `Buffer.toString("hex")`. */
  predicate IsLowerHexDigit(c: char) {
    '0' <= c <= '9' || 'a' <= c <= 'f'
  }

  predicate AllKeyChars(s: string) {
    forall i :: 0 <= i < |s| ==> IsKeyChar(s[i])
  }

  predicate NoWhitespace(s: string) {
    forall i :: 0 <= i < |s| ==> !IsWhitespace(s[i])
  }

  predicate IsLowerHex(s: string) {
    forall i :: 0 <= i < |s| ==> IsLowerHexDigit(s[i])
  }

  predicate AllDigits(s: string) {
    forall i :: 0 <= i < |s| ==> IsDigit(s[i])
  }

  lemma KeyCharsHaveNoWhitespace(s: string)
    requires AllKeyChars(s)
    ensures NoWhitespace(s)
  {
  }

  // ---------------------------------------------------------------------
  // trim()

  /** Drops the leading whitespace: the result is a suffix that does not
      start with whitespace. */
  function TrimStart(s: string): (r: string)
    ensures |r| <= |s| && r == s[|s| - |r|..]
    ensures |r| == 0 || !IsWhitespace(r[0])
  {
    if |s| > 0 && IsWhitespace(s[0]) then TrimStart(s[1..]) else s
  }

  /** Everything `TrimStart` drops is whitespace, so the suffix it keeps is
      the longest one not starting with whitespace. */
  lemma {:induction false} TrimStartDropsWhitespace(s: string)
    ensures forall i :: 0 <= i < |s| - |TrimStart(s)| ==> IsWhitespace(s[i])
    decreases |s|
  {
    if |s| > 0 && IsWhitespace(s[0]) {
      TrimStartDropsWhitespace(s[1..]);
      assert forall i :: 1 <= i < |s| ==> s[i] == s[1..][i - 1];
    }
  }

  /** Drops the trailing whitespace: the result is a prefix that does not
      end with whitespace. */
  function TrimEnd(s: string): (r: string)
    ensures |r| <= |s| && r == s[..|r|]
    ensures |r| == 0 || !IsWhitespace(r[|r| - 1])
  {
    if |s| > 0 && IsWhitespace(s[|s| - 1]) then TrimEnd(s[..|s| - 1]) else s
  }

  lemma {:induction false} TrimEndDropsWhitespace(s: string)
    ensures forall i :: |TrimEnd(s)| <= i < |s| ==> IsWhitespace(s[i])
    decreases |s|
  {
    if |s| > 0 && IsWhitespace(s[|s| - 1]) {
      TrimEndDropsWhitespace(s[..|s| - 1]);
    }
  }

  /** `String.prototype.trim`: the result neither starts nor ends with
      whitespace; `TrimIsSlice` shows it is a contiguous slice of the input. */
  function Trim(s: string): (r: string)
    ensures |r| <= |s|
    ensures |r| == 0 || (!IsWhitespace(r[0]) && !IsWhitespace(r[|r| - 1]))
  {
    TrimEnd(TrimStart(s))
  }

  /** The trimmed text is the slice of the input that starts after the
      leading whitespace. */
  lemma TrimIsSlice(s: string)
    ensures var k := |s| - |TrimStart(s)|; var r := Trim(s);
      k + |r| <= |s| && r == s[k..k + |r|]
  {
    var t := TrimStart(s);
    var k := |s| - |t|;
    var r := Trim(s);
    assert t == s[k..] && r == t[..|r|];
    assert s[k..][..|r|] == s[k..k + |r|];
  }

  predicate Blank(s: string) {
    forall i :: 0 <= i < |s| ==> IsWhitespace(s[i])
  }

  /** Trimming leaves nothing exactly when the input is all whitespace. */
  lemma TrimEmptyIffBlank(s: string)
    ensures |Trim(s)| == 0 <==> Blank(s)
  {
    var t := TrimStart(s);
    TrimStartDropsWhitespace(s);
    TrimEndDropsWhitespace(t);
    if |Trim(s)| == 0 {
      assert |t| == 0;
    } else {
      assert |t| > 0 && t[0] == s[|s| - |t|];
    }
  }

  /** Text that neither starts nor ends with whitespace is left as it is. */
  lemma TrimOfTrimmed(s: string)
    requires |s| > 0 && !IsWhitespace(s[0]) && !IsWhitespace(s[|s| - 1])
    ensures Trim(s) == s
  {
  }

  /** One space on each side of trimmed text is removed and nothing more. */
  lemma TrimOfPadded(s: string)
    requires |s| > 0 && !IsWhitespace(s[0]) && !IsWhitespace(s[|s| - 1])
    ensures Trim([' '] + s + [' ']) == s
  {
    var p := [' '] + s + [' '];
    var q := s + [' '];
    assert p[0] == ' ' && p[1..] == q;
    assert q[0] == s[0];
    assert TrimStart(p) == q;
    assert q[|q| - 1] == ' ' && q[..|q| - 1] == s;
    assert TrimEnd(q) == TrimEnd(s) == s;
  }

  // ---------------------------------------------------------------------
  // replace(/\s+/g, "-")

  /** Replaces every maximal run of whitespace by a single `-`; every other
      character is kept, so the result is never longer than the input and
      empty only for the empty input. */
  function DashRuns(s: string): (r: string)
    ensures |r| <= |s|
    ensures |s| > 0 ==> |r| > 0
    decreases |s|
  {
    if |s| == 0 then ""
    else if IsWhitespace(s[0]) then "-" + DashRuns(TrimStart(s))
    else [s[0]] + DashRuns(s[1..])
  }

  /** No whitespace survives. */
  lemma {:induction false} DashRunsNoWhitespace(s: string)
    ensures NoWhitespace(DashRuns(s))
    decreases |s|
  {
    if |s| > 0 {
      if IsWhitespace(s[0]) {
        DashRunsNoWhitespace(TrimStart(s));
      } else {
        DashRunsNoWhitespace(s[1..]);
      }
    }
  }

  /** A first character that is not whitespace stays first. */
  lemma DashRunsKeepsFirst(s: string)
    requires |s| > 0 && !IsWhitespace(s[0])
    ensures DashRuns(s)[0] == s[0]
  {
  }

  /** A last character that is not whitespace stays last. */
  lemma {:induction false} DashRunsKeepsLast(s: string)
    requires |s| > 0 && !IsWhitespace(s[|s| - 1])
    ensures DashRuns(s)[|DashRuns(s)| - 1] == s[|s| - 1]
    decreases |s|
  {
    if IsWhitespace(s[0]) {
      var t := TrimStart(s);
      TrimStartDropsWhitespace(s);
      assert |t| > 0;
      assert t[|t| - 1] == s[|s| - 1];
      DashRunsKeepsLast(t);
    } else if |s| > 1 {
      assert s[1..][|s| - 2] == s[|s| - 1];
      DashRunsKeepsLast(s[1..]);
    }
  }

  /** Text without whitespace is left as it is. */
  lemma {:induction false} DashRunsPlain(s: string)
    requires NoWhitespace(s)
    ensures DashRuns(s) == s
    decreases |s|
  {
    if |s| > 0 {
      assert !IsWhitespace(s[0]);
      DashRunsPlain(s[1..]);
      assert s == [s[0]] + s[1..];
    }
  }

  /** A leading character that is not whitespace is copied as it is. */
  lemma DashRunsCons(c: char, t: string)
    requires !IsWhitespace(c)
    ensures DashRuns([c] + t) == [c] + DashRuns(t)
  {
    var s := [c] + t;
    assert s[0] == c && s[1..] == t;
  }

  /** Dropping the first character keeps text whitespace-free. */
  lemma NoWhitespaceTail(a: string)
    requires |a| > 0 && NoWhitespace(a)
    ensures !IsWhitespace(a[0]) && NoWhitespace(a[1..])
  {
    forall i | 0 <= i < |a| - 1 ensures !IsWhitespace(a[1..][i]) {
      assert a[1..][i] == a[i + 1];
    }
  }

  /** A non-empty text is its first character followed by the rest. */
  lemma SplitHead(a: string, b: string)
    requires |a| > 0
    ensures a + b == [a[0]] + (a[1..] + b)
  {
  }

  /** A whitespace-free prefix passes through `DashRuns` untouched. */
  lemma {:induction false} DashRunsAfterPlain(a: string, b: string)
    requires NoWhitespace(a)
    ensures DashRuns(a + b) == a + DashRuns(b)
    decreases |a|
  {
    if |a| == 0 {
      assert a + b == b;
    } else {
      SplitHead(a, b);
      SplitHead(a, DashRuns(b));
      NoWhitespaceTail(a);
      DashRunsAfterPlain(a[1..], b);
      DashRunsCons(a[0], a[1..] + b);
    }
  }

  // ---------------------------------------------------------------------
  // replace(/[^a-zA-Z0-9._-]/g, "_")

  function KeyCharOf(c: char): (d: char)
    ensures IsKeyChar(d)
    ensures d == c <==> IsKeyChar(c)
  {
    if IsKeyChar(c) then c else '_'
  }

  /** Replaces every character outside `[a-zA-Z0-9._-]` by `_`, one for one. */
  function KeySafe(s: string): (r: string)
    ensures |r| == |s|
    ensures forall i :: 0 <= i < |s| ==> r[i] == KeyCharOf(s[i])
  {
    seq(|s|, i requires 0 <= i < |s| => KeyCharOf(s[i]))
  }

  /** `KeySafe` changes nothing exactly when nothing needs replacing. */
  lemma KeySafeFixpoint(s: string)
    ensures AllKeyChars(KeySafe(s))
    ensures KeySafe(s) == s <==> AllKeyChars(s)
  {
    if AllKeyChars(s) {
      assert forall i :: 0 <= i < |s| ==> KeySafe(s)[i] == s[i];
    }
  }

  lemma KeySafeIdempotent(s: string)
    ensures KeySafe(KeySafe(s)) == KeySafe(s)
  {
    KeySafeFixpoint(KeySafe(s));
  }

  // ---------------------------------------------------------------------
  // slice(0, n)

  /** `String.prototype.slice(0, n)` for `n >= 0`. */
  function Take(s: string, n: nat): (r: string)
    ensures |r| == if |s| < n then |s| else n
    ensures r == s[..|r|]
  {
    if |s| <= n then s else s[..n]
  }

  // ---------------------------------------------------------------------
  // toLowerCase (ASCII letters)

  function LowerChar(c: char): char {
    if 'A' <= c <= 'Z' then (c as int - 'A' as int + 'a' as int) as char else c
  }

  /** Lower-cases the ASCII letters and keeps every other character. */
  function ToLower(s: string): (r: string)
    ensures |r| == |s|
  {
    seq(|s|, i requires 0 <= i < |s| => LowerChar(s[i]))
  }

  /** Lower-casing leaves no ASCII capital, keeps whitespace where it was,
      and changes nothing the second time. */
  lemma ToLowerShape(s: string)
    ensures forall i :: 0 <= i < |s| ==> !('A' <= ToLower(s)[i] <= 'Z')
    ensures forall i :: 0 <= i < |s| ==> (IsWhitespace(ToLower(s)[i]) <==> IsWhitespace(s[i]))
    ensures ToLower(ToLower(s)) == ToLower(s)
  {
  }

  // ---------------------------------------------------------------------
  // split(sep) and its inverse

  /** Joins pieces with a separator between consecutive ones. */
  function Join(parts: seq<string>, sep: char): string
    requires |parts| >= 1
  {
    if |parts| == 1 then parts[0] else parts[0] + [sep] + Join(parts[1..], sep)
  }

  /** Splits at the first occurrence of `sep`. */
  function SplitFirst(s: string, sep: char): (r: Option<(string, string)>)
    ensures r.None? <==> sep !in s
    ensures r.Some? ==> sep !in r.value.0 && s == r.value.0 + [sep] + r.value.1
  {
    if |s| == 0 then None
    else if s[0] == sep then Some(([], s[1..]))
    else
      match SplitFirst(s[1..], sep)
      case None => None
      case Some(p) => Some(([s[0]] + p.0, p.1))
  }

  /** `String.prototype.split` on a one-character separator: the piece
      before the first separator, then the split of the rest; text without
      a separator is a single piece. */
  function Split(s: string, sep: char): (parts: seq<string>)
    ensures |parts| >= 1
    decreases |s|
  {
    match SplitFirst(s, sep)
    case None => [s]
    case Some(p) => [p.0] + Split(p.1, sep)
  }

  /** No piece holds the separator, and joining the pieces with it gives the
      input back. */
  lemma {:induction false} SplitJoin(s: string, sep: char)
    ensures forall i :: 0 <= i < |Split(s, sep)| ==> sep !in Split(s, sep)[i]
    ensures Join(Split(s, sep), sep) == s
    decreases |s|
  {
    match SplitFirst(s, sep)
    case None =>
    case Some(p) =>
      SplitJoin(p.1, sep);
      var parts := [p.0] + Split(p.1, sep);
      assert parts[1..] == Split(p.1, sep);
  }

  /** Splitting at the first separator undoes a join whose head is free of it. */
  lemma {:induction false} SplitFirstOfJoin(a: string, b: string, sep: char)
    requires sep !in a
    ensures SplitFirst(a + [sep] + b, sep) == Some((a, b))
    decreases |a|
  {
    var s := a + [sep] + b;
    if |a| == 0 {
      assert s == [sep] + b;
    } else {
      assert s[0] == a[0];
      assert s[1..] == a[1..] + [sep] + b;
      SplitFirstOfJoin(a[1..], b, sep);
      assert [a[0]] + a[1..] == a;
    }
  }

  // ---------------------------------------------------------------------
  // decimal rendering of a natural number (template literal of Date.now())

  function DigitChar(d: nat): (c: char)
    requires d < 10
    ensures IsDigit(c)
  {
    ('0' as int + d) as char
  }

  /** The shortest decimal rendering of `n`. */
  function Decimal(n: nat): (s: string)
    ensures |s| >= 1 && AllDigits(s)
    ensures |s| > 1 ==> s[0] != '0'
  {
    if n < 10 then [DigitChar(n)] else Decimal(n / 10) + [DigitChar(n % 10)]
  }

  /** Reads a string of decimal digits. */
  function DecimalValue(s: string): nat
    requires AllDigits(s)
  {
    if |s| == 0 then 0
    else DecimalValue(s[..|s| - 1]) * 10 + (s[|s| - 1] as int - '0' as int)
  }

  lemma {:induction false} DecimalRoundTrip(n: nat)
    ensures DecimalValue(Decimal(n)) == n
  {
    if n >= 10 {
      var s := Decimal(n);
      assert s[..|s| - 1] == Decimal(n / 10);
      DecimalRoundTrip(n / 10);
    }
  }
}
