/** The internal credential route `POST /uploads/videos`.  It answers with
    a storage URL and form fields of its own making: no admin, no quota
    claim, no session, no asset policy, and a key built by simpler rules
    than the orchestrator's. */
module InternalRoutes {
  import opened Wrappers
  import opened Strings
  import opened Schema
  import opened Naming
  import opened Routes
  import opened Manager

  /** `replace(/\/$/, "")`: at most one trailing slash is dropped. */
  function StripTrailingSlash(s: string): (r: string)
    ensures r <= s && |s| - 1 <= |r|
    ensures |r| < |s| <==> |s| > 0 && s[|s| - 1] == '/'
  {
    if |s| > 0 && s[|s| - 1] == '/' then s[..|s| - 1] else s
  }

  /** Only one slash goes: a base URL ending in two slashes keeps one, so
      the URL built on it holds an empty path segment. */
  lemma StripKeepsSecondSlash(s: string)
    requires |s| >= 2 && s[|s| - 1] == '/' && s[|s| - 2] == '/'
    ensures StripTrailingSlash(s) == s[..|s| - 1]
    ensures |StripTrailingSlash(s)| > 0 && StripTrailingSlash(s)[|StripTrailingSlash(s)| - 1] == '/'
  {
  }

  /** `<now>-<12 hex>-<name>`: every character of the name outside
      `[a-zA-Z0-9._-]` becomes `_`; nothing is trimmed, folded or cut, and
      there is no asset prefix. */
  function InternalObjectKey(keyStampMs: nat, keySuffix: string, fileName: string): string {
    StampedName(keyStampMs, keySuffix, KeySafe(fileName))
  }

  /** The internal key keeps the whole name, one character for one, and
      holds no `/`, so it is a single path segment. */
  lemma InternalKeyShape(keyStampMs: nat, keySuffix: string, fileName: string)
    requires AllKeyChars(keySuffix)
    ensures var key := InternalObjectKey(keyStampMs, keySuffix, fileName);
      && AllKeyChars(key) && '/' !in key
      && |key| == |Decimal(keyStampMs)| + |keySuffix| + |fileName| + 2
  {
    var name := KeySafe(fileName);
    KeySafeFixpoint(fileName);
    StampedNameKeyChars(keyStampMs, keySuffix, name);
    var key := InternalObjectKey(keyStampMs, keySuffix, fileName);
    assert forall i :: 0 <= i < |key| ==> key[i] != '/';
  }

  /** The key can be taken apart into its stamp, suffix and cleaned name. */
  lemma InternalKeyRoundTrip(keyStampMs: nat, keySuffix: string, fileName: string)
    requires '-' !in keySuffix
    ensures ParseStampedName(InternalObjectKey(keyStampMs, keySuffix, fileName))
         == Some(StampedParts(Decimal(keyStampMs), keySuffix, KeySafe(fileName)))
  {
    StampedNameRoundTrip(keyStampMs, keySuffix, KeySafe(fileName));
  }

  /** The first whitespace character of a text that has one. */
  lemma FirstWhitespace(s: string) returns (i: nat)
    requires !NoWhitespace(s)
    ensures i < |s| && IsWhitespace(s[i]) && NoWhitespace(s[..i])
  {
    var j :| 0 <= j < |s| && IsWhitespace(s[j]);
    i := 0;
    while !IsWhitespace(s[i])
      invariant i <= j && NoWhitespace(s[..i])
      decreases j - i
    {
      assert s[..i + 1] == s[..i] + [s[i]];
      i := i + 1;
    }
  }

  /** Leading whitespace is trimmed away, so the trimmed name is shorter. */
  lemma LeadingWhitespaceShortens(n: string)
    requires |n| > 0 && IsWhitespace(n[0])
    ensures |Trim(n)| < |n|
  {
    assert TrimStart(n) == TrimStart(n[1..]);
  }

  /** The first whitespace run, when it is not leading, becomes `-` at its
      own position. */
  lemma {:induction false} InteriorDash(u: string, i: nat)
    requires i < |u| && NoWhitespace(u[..i]) && IsWhitespace(u[i])
    ensures |DashRuns(u)| > i && DashRuns(u)[i] == '-'
  {
    var head, tail := u[..i], u[i..];
    assert u == head + tail;
    DashRunsAfterPlain(head, tail);
    assert tail[0] == u[i];
    assert DashRuns(tail)[0] == '-';
  }

  /** A name of at most 160 characters is not cut. */
  lemma ShortNameUncut(n: string)
    requires |n| <= MaxNameLength
    ensures SanitizeFileName(n) == KeySafe(DashRuns(Trim(n)))
  {
  }

  /** Whitespace is never a key character, so this route writes `_`. */
  lemma WhitespaceBecomesUnderscore(c: char)
    requires IsWhitespace(c)
    ensures KeyCharOf(c) == '_'
  {
  }

  /** When the first whitespace character survives trimming, the two
      builders differ at its position: `-` against `_`. */
  lemma InteriorWhitespaceDiffers(n: string, i: nat)
    requires |n| <= MaxNameLength && i < |Trim(n)| && Trim(n) == n[..|Trim(n)|]
    requires NoWhitespace(n[..i]) && IsWhitespace(n[i])
    ensures KeySafe(n) != SanitizeFileName(n)
  {
    var u := Trim(n);
    ShortNameUncut(n);
    assert u[..i] == n[..i] && u[i] == n[i];
    InteriorDash(u, i);
    assert SanitizeFileName(n)[i] == KeyCharOf(DashRuns(u)[i]) == '-';
    WhitespaceBecomesUnderscore(n[i]);
    assert KeySafe(n)[i] == '_';
  }

  /** A name that trimming shortens is cleaned to fewer characters than
      this route keeps. */
  lemma TrimmedShorterDiffers(n: string)
    requires |Trim(n)| < |n|
    ensures |SanitizeFileName(n)| < |KeySafe(n)|
  {
  }

  /** Without leading whitespace, trimming only cuts the end. */
  lemma TrimKeepsPlainStart(n: string)
    requires |n| > 0 && !IsWhitespace(n[0])
    ensures Trim(n) == n[..|Trim(n)|]
  {
    assert TrimStart(n) == n;
  }

  /** A name holding whitespace is cleaned differently by the two builders:
      the orchestrator trims it, shortening it, or turns its first interior
      whitespace into `-` where this route writes `_`. */
  lemma WhitespaceNamesDiffer(fileName: string)
    requires |fileName| <= MaxNameLength && !NoWhitespace(fileName)
    ensures KeySafe(fileName) != SanitizeFileName(fileName)
  {
    var n := fileName;
    var i := FirstWhitespace(n);
    if i == 0 {
      LeadingWhitespaceShortens(n);
      TrimmedShorterDiffers(n);
    } else {
      assert n[..i][0] == n[0];
      TrimKeepsPlainStart(n);
      if |Trim(n)| > i {
        InteriorWhitespaceDiffers(n, i);
      } else {
        TrimmedShorterDiffers(n);
      }
    }
  }

  /** Up to 160 characters the two key builders clean a name alike exactly
      when it holds no whitespace; past 160 this route keeps more. */
  lemma NamesAgreeIffNoWhitespace(fileName: string)
    ensures |fileName| <= MaxNameLength ==> (KeySafe(fileName) == SanitizeFileName(fileName) <==> NoWhitespace(fileName))
    ensures |fileName| > MaxNameLength ==> |KeySafe(fileName)| > |SanitizeFileName(fileName)|
  {
    if |fileName| <= MaxNameLength {
      if !NoWhitespace(fileName) {
        WhitespaceNamesDiffer(fileName);
      } else if |fileName| > 0 {
        TrimOfTrimmed(fileName);
        DashRunsPlain(fileName);
      }
    }
  }

  /** The values the route draws from the clock and the random source: the
      key's timestamp, the 12-hex-digit suffix, a second clock reading for
      the expiry, and the random policy and signature strings. */
  datatype InternalDraws = InternalDraws(
    keyStampMs: nat,
    keySuffix: string,
    expiryNowMs: int,
    policy: string,
    signature: string)

  const FieldNames: set<string> := {"key", "bucket", "policy", "signature"}

  /** `buildResponse`.  `cdnHost` is the host part of the base URL. */
  function BuildResponse(bucket: string, baseUrl: string, ttlSeconds: int, fileName: string, d: InternalDraws,
                         cdnHost: string): (resp: UploadUrlResponse)
    ensures resp.fields.Some? && resp.fields.value.Keys == FieldNames
    ensures resp.fields.value["key"] == InternalObjectKey(d.keyStampMs, d.keySuffix, fileName)
    ensures resp.fields.value["bucket"] == bucket
    ensures resp.fields.value["policy"] == d.policy && resp.fields.value["signature"] == d.signature
    ensures resp.expiresAt == d.expiryNowMs + ttlSeconds * 1000
    ensures resp.cdn == Some(cdnHost)
  {
    var key := InternalObjectKey(d.keyStampMs, d.keySuffix, fileName);
    UploadUrlResponse(
      StripTrailingSlash(baseUrl) + "/" + bucket + "/" + key,
      d.expiryNowMs + ttlSeconds * 1000,
      Some(map["key" := key, "bucket" := bucket, "policy" := d.policy, "signature" := d.signature]),
      Some(cdnHost))
  }

  /** The upload URL is the base URL without its trailing slash, then the
      bucket, then the key form field, separated by `/`; with a clean random
      suffix the key is its last path segment and the bucket the one before. */
  lemma UploadUrlEndsWithKey(bucket: string, baseUrl: string, ttlSeconds: int, fileName: string, d: InternalDraws,
                             cdnHost: string)
    requires AllKeyChars(d.keySuffix)
    ensures var resp := BuildResponse(bucket, baseUrl, ttlSeconds, fileName, d, cdnHost);
      var key := resp.fields.value["key"]; var url := resp.uploadUrl;
      && |url| > |key| && url[|url| - |key|..] == key && url[|url| - |key| - 1] == '/' && '/' !in key
      && url[..|StripTrailingSlash(baseUrl)| + 1] == StripTrailingSlash(baseUrl) + "/"
      && url[|StripTrailingSlash(baseUrl)| + 1..|url| - |key| - 1] == bucket
  {
    InternalKeyShape(d.keyStampMs, d.keySuffix, fileName);
    PathSegments(StripTrailingSlash(baseUrl), bucket, InternalObjectKey(d.keyStampMs, d.keySuffix, fileName));
  }

  /** `<base>/<bucket>/<key>` taken apart again by position. */
  lemma PathSegments(base: string, bucket: string, key: string)
    ensures var url := base + "/" + bucket + "/" + key;
      && |url| > |key| && url[|url| - |key|..] == key && url[|url| - |key| - 1] == '/'
      && url[..|base| + 1] == base + "/"
      && url[|base| + 1..|url| - |key| - 1] == bucket
  {
    var head := base + "/" + bucket + "/";
    var url := head + key;
    JoinHalves(head, key);
    JoinHalves(base + "/", bucket + "/" + key);
    assert url == base + "/" + (bucket + "/" + key);
    assert url[|base| + 1..|url| - |key| - 1] == (bucket + "/" + key)[..|bucket|] == bucket;
  }

  /** The route: the body must pass its schema; then the response is built
      from the configured bucket, base URL and lifetime.  Nothing else is
      consulted or changed. */
  function CreateUploadUrlRoute(cfg: Config, body: UploadBody, d: InternalDraws, cdnHost: string): (r: Result<UploadUrlResponse, RouteError>)
    ensures r.Success? <==> WithinSchema(body)
    ensures r.Failure? ==> r.error == InvalidInput
    ensures r.Success? ==>
      && r.value == BuildResponse(cfg.uploadBucket, cfg.cdnUploadBaseUrl, cfg.signedUploadTtlSeconds, body.fileName, d, cdnHost)
      && r.value.fields.value["key"] == InternalObjectKey(d.keyStampMs, d.keySuffix, body.fileName)
      && r.value.fields.value["bucket"] == cfg.uploadBucket
      && r.value.expiresAt == d.expiryNowMs + cfg.signedUploadTtlSeconds * 1000
  {
    if !WithinSchema(body) then Failure(InvalidInput)
    else Success(BuildResponse(cfg.uploadBucket, cfg.cdnUploadBaseUrl, cfg.signedUploadTtlSeconds, body.fileName, d, cdnHost))
  }

  /** A schema-valid name of up to 255 characters shows in full in the key,
      past the 160 the orchestrator would keep. */
  lemma LongNamesKeptWhole(cfg: Config, body: UploadBody, d: InternalDraws, cdnHost: string)
    requires WithinSchema(body) && '-' !in d.keySuffix
    ensures var r := CreateUploadUrlRoute(cfg, body, d, cdnHost);
      && r.Success?
      && ParseStampedName(r.value.fields.value["key"]).Some?
      && ParseStampedName(r.value.fields.value["key"]).value.name == KeySafe(body.fileName)
      && |ParseStampedName(r.value.fields.value["key"]).value.name| == |body.fileName|
  {
    InternalKeyRoundTrip(d.keyStampMs, d.keySuffix, body.fileName);
  }
}
