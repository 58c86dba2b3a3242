/** File-name sanitisation and the object keys built from it. */
module Naming {
  import opened Wrappers
  import opened Strings
  import opened Policy

  const MaxNameLength: nat := 160

  /** The orchestrator's file-name cleaning: trim, turn each whitespace run
      into `-`, replace everything outside `[a-zA-Z0-9._-]` by `_`, keep at
      most 160 characters. */
  function SanitizeFileName(fileName: string): (r: string)
    ensures |r| <= MaxNameLength
    ensures |r| == 0 <==> |Trim(fileName)| == 0
  {
    Take(KeySafe(DashRuns(Trim(fileName))), MaxNameLength)
  }

  /** The cleaned name uses only `[a-zA-Z0-9._-]`; it is empty exactly for
      an all-whitespace name; its first character comes from the first
      non-whitespace character of the name, and so does its last one when
      nothing was cut. */
  lemma SanitizeFileNameShape(fileName: string)
    ensures var r := SanitizeFileName(fileName);
      && AllKeyChars(r)
      && (|r| == 0 <==> Blank(fileName))
      && (|r| > 0 ==> !IsWhitespace(Trim(fileName)[0]) && r[0] == KeyCharOf(Trim(fileName)[0]))
  {
    var t := Trim(fileName);
    var d := DashRuns(t);
    var k := KeySafe(d);
    KeySafeFixpoint(d);
    TrimEmptyIffBlank(fileName);
    if |t| > 0 {
      DashRunsKeepsFirst(t);
      assert k[0] == KeyCharOf(t[0]);
    }
  }

  /** When nothing is cut, the last character comes from the last
      non-whitespace character of the name: no trailing dash is made out of
      trailing whitespace. */
  lemma SanitizeKeepsLastWhenShort(fileName: string)
    requires |Trim(fileName)| > 0 && |DashRuns(Trim(fileName))| <= MaxNameLength
    ensures var r := SanitizeFileName(fileName); var t := Trim(fileName);
      |r| > 0 && r[|r| - 1] == KeyCharOf(t[|t| - 1]) && !IsWhitespace(t[|t| - 1])
  {
    var t := Trim(fileName);
    DashRunsKeepsLast(t);
  }

  /** A dash can open the cleaned name only if the name itself, once trimmed,
      opens with a dash: no whitespace is ever turned into a leading dash. */
  lemma NoLeadingDashFromWhitespace(fileName: string)
    requires |SanitizeFileName(fileName)| > 0
    ensures SanitizeFileName(fileName)[0] == '-' <==> Trim(fileName)[0] == '-'
  {
    SanitizeFileNameShape(fileName);
  }

  /** Cleaning is idempotent. */
  lemma {:induction false} SanitizeIdempotent(fileName: string)
    ensures SanitizeFileName(SanitizeFileName(fileName)) == SanitizeFileName(fileName)
  {
    var r := SanitizeFileName(fileName);
    SanitizeFileNameShape(fileName);
    KeyCharsHaveNoWhitespace(r);
    if |r| > 0 {
      TrimOfTrimmed(r);
    }
    DashRunsPlain(r);
    KeySafeFixpoint(r);
  }

  /** Truncation happens after whitespace runs become dashes, so a run that
      sits exactly at the cut leaves a trailing dash: 159 plain characters
      followed by " b" clean to those 159 characters and a `-`. */
  lemma TruncationCanLeaveTrailingDash(a: string)
    requires |a| == MaxNameLength - 1 && AllKeyChars(a)
    ensures SanitizeFileName(a + " b") == a + "-"
  {
    PlainThenSpacedLetter(a);
    CleanPlainThenDash(a);
  }

  lemma CleanPlainThenDash(a: string)
    requires |a| == MaxNameLength - 1 && AllKeyChars(a)
    ensures Take(KeySafe(a + "-b"), MaxNameLength) == a + "-"
  {
    var d := a + "-b";
    AppendKeyChars(a, "-b");
    KeySafeFixpoint(d);
    assert d[..MaxNameLength] == a + "-";
  }

  /** A plain name followed by one space and a letter survives trimming and
      has its space turned into a dash. */
  lemma PlainThenSpacedLetter(a: string)
    requires |a| > 0 && AllKeyChars(a)
    ensures Trim(a + " b") == a + " b"
    ensures DashRuns(a + " b") == a + "-b"
  {
    KeyCharsHaveNoWhitespace(a);
    PlainEnds(a, " b");
    SpaceThenLetter();
    DashRunsAfterPlain(a, " b");
  }

  lemma PlainEnds(a: string, b: string)
    requires |a| > 0 && NoWhitespace(a) && |b| > 0 && !IsWhitespace(b[|b| - 1])
    ensures Trim(a + b) == a + b
  {
    var s := a + b;
    assert s[0] == a[0] && s[|s| - 1] == b[|b| - 1];
    TrimOfTrimmed(s);
  }

  lemma SpaceThenLetter()
    ensures DashRuns(" b") == "-b"
  {
    assert TrimStart(" b") == "b" by {
      assert " b"[1..] == "b";
    }
    assert DashRuns("b") == "b" by {
      assert "b"[1..] == "";
    }
  }

  /** `<stamp>-<random hex>-<name>`, the tail shared by both key formats. */
  function StampedName(stamp: nat, randomHex: string, name: string): string {
    Decimal(stamp) + "-" + randomHex + "-" + name
  }

  lemma StampedNameKeyChars(stamp: nat, randomHex: string, name: string)
    ensures AllKeyChars(randomHex) && AllKeyChars(name) ==> AllKeyChars(StampedName(stamp, randomHex, name))
  {
    if !(AllKeyChars(randomHex) && AllKeyChars(name)) {
      return;
    }
    var d := Decimal(stamp);
    assert AllKeyChars(d) by {
      forall i | 0 <= i < |d| ensures IsKeyChar(d[i]) {
        assert IsDigit(d[i]);
      }
    }
    AppendKeyChars(d, "-");
    AppendKeyChars(d + "-", randomHex);
    AppendKeyChars(d + "-" + randomHex, "-");
    AppendKeyChars(d + "-" + randomHex + "-", name);
  }

  lemma AppendKeyChars(a: string, b: string)
    requires AllKeyChars(a) && AllKeyChars(b)
    ensures AllKeyChars(a + b)
  {
    assert forall i :: 0 <= i < |a + b| ==> (a + b)[i] == if i < |a| then a[i] else b[i - |a|];
  }

  datatype StampedParts = StampedParts(stamp: string, randomHex: string, name: string)

  /** Reads a stamped name back: the stamp runs to the first `-`, the random
      part to the next one, the name is the rest (it may hold dashes). */
  function ParseStampedName(s: string): Option<StampedParts> {
    match SplitFirst(s, '-')
    case None => None
    case Some(p) =>
      match SplitFirst(p.1, '-')
      case None => None
      case Some(q) => Some(StampedParts(p.0, q.0, q.1))
  }

  lemma StampedNameRoundTrip(stamp: nat, randomHex: string, name: string)
    requires '-' !in randomHex
    ensures ParseStampedName(StampedName(stamp, randomHex, name)) == Some(StampedParts(Decimal(stamp), randomHex, name))
  {
    var d := Decimal(stamp);
    assert forall i :: 0 <= i < |d| ==> IsDigit(d[i]);
    assert '-' !in d;
    assert StampedName(stamp, randomHex, name) == d + ['-'] + (randomHex + "-" + name);
    SplitFirstOfJoin(d, randomHex + "-" + name, '-');
    assert randomHex + "-" + name == randomHex + ['-'] + name;
    SplitFirstOfJoin(randomHex, name, '-');
  }

  /** The orchestrator's key: `<prefix>/<now>-<16 hex>-<clean name>`. */
  function BuildObjectKey(t: AssetType, fileName: string, nowMs: nat, randomHex: string): string {
    PolicyFor(t).prefix + "/" + StampedName(nowMs, randomHex, SanitizeFileName(fileName))
  }

  /** A key sits under its asset's prefix, and past the `/` it uses only
      `[a-zA-Z0-9._-]` when the random part does. */
  lemma ObjectKeyShape(t: AssetType, fileName: string, nowMs: nat, randomHex: string)
    ensures var key := BuildObjectKey(t, fileName, nowMs, randomHex); var n := |PolicyFor(t).prefix|;
      && |key| > n + 1 && key[..n + 1] == PolicyFor(t).prefix + "/"
      && (AllKeyChars(randomHex) ==> AllKeyChars(key[n + 1..]))
  {
    var head := PolicyFor(t).prefix + "/";
    var tail := StampedName(nowMs, randomHex, SanitizeFileName(fileName));
    assert |tail| > 0 by {
      assert |Decimal(nowMs) + "-"| > 0;
    }
    JoinHalves(head, tail);
    StampedNameKeyChars(nowMs, randomHex, SanitizeFileName(fileName));
  }

  lemma JoinHalves(a: string, b: string)
    ensures (a + b)[..|a|] == a && (a + b)[|a|..] == b
  {
  }

  datatype KeyParts = KeyParts(prefix: string, stamp: string, randomHex: string, name: string)

  function ParseObjectKey(key: string): Option<KeyParts> {
    match SplitFirst(key, '/')
    case None => None
    case Some(p) =>
      match ParseStampedName(p.1)
      case None => None
      case Some(q) => Some(KeyParts(p.0, q.stamp, q.randomHex, q.name))
  }

  /** A built key can be taken apart again into the asset prefix, the
      decimal timestamp, the random part and the cleaned file name. */
  lemma ObjectKeyRoundTrip(t: AssetType, fileName: string, nowMs: nat, randomHex: string)
    requires '-' !in randomHex
    ensures ParseObjectKey(BuildObjectKey(t, fileName, nowMs, randomHex))
         == Some(KeyParts(PolicyFor(t).prefix, Decimal(nowMs), randomHex, SanitizeFileName(fileName)))
  {
    var prefix := PolicyFor(t).prefix;
    var tail := StampedName(nowMs, randomHex, SanitizeFileName(fileName));
    assert BuildObjectKey(t, fileName, nowMs, randomHex) == prefix + ['/'] + tail;
    SplitFirstOfJoin(prefix, tail, '/');
    StampedNameRoundTrip(nowMs, randomHex, SanitizeFileName(fileName));
  }
}
