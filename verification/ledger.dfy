/** The orchestrator's explicit state: per-admin active-upload counters, the
    session rows, and the log of every effect it has caused on its
    collaborators (quota service, object storage, session store, message
    bus, audit sink). */
module Ledger {
  import opened Wrappers
  import opened Errors
  import opened Sessions

  datatype EventKind = MediaUploaded | PreviewRequested | MediaProcessed

  datatype AuditKind =
    | IntentCreated
    | ValidationFailed
    | ValidationPassedAudit
    | MediaUploadedAudit
    | PreviewRequestedAudit
    | MediaProcessedAudit
    | ProcessingReady
    | ProcessingFailed

  /** The signed POST policy requested from object storage: the key, the
      expiry, the `content-length-range` bounds and the form fields. */
  datatype SignRequest = SignRequest(
    objectKey: string,
    expiresAt: int,
    minLength: int,
    maxLength: int,
    contentType: string,
    fields: map<string, string>)

  datatype StoreCall =
    | CreateSession(attrs: NewSession)
    | MarkUploading(uploadId: UploadId)
    | MarkValidating(uploadId: UploadId)
    | CompleteValidation(uploadId: UploadId, update: ValidationUpdate)
    | UpdateProcessingOutcome(uploadId: UploadId, outcome: ProcessingUpdate)
    | ExpireOlderThan(now: int)

  /** One call made on a collaborator.  `Claim` is a claim the quota
      service granted; a refused claim changes nothing and is not logged. */
  datatype Effect =
    | Claim(admin: AdminId)
    | Release(admin: AdminId)
    | Sign(request: SignRequest)
    | Store(call: StoreCall)
    | Publish(event: EventKind, uploadId: UploadId)
    | Audit(kind: AuditKind, uploadId: UploadId)

  datatype State = State(quota: map<AdminId, int>, sessions: map<UploadId, Session>, log: seq<Effect>)

  /** What one operation does: the effects in the order it caused them, the
      rows the store replied with, and its result or failure. */
  datatype Step<T> = Step(effects: seq<Effect>, writes: map<UploadId, Session>, result: Result<T, Failure>)

  /** The admin's active-upload count; an admin never seen counts zero. */
  function Active(quota: map<AdminId, int>, a: AdminId): int {
    if a in quota then quota[a] else 0
  }

  /** The ledger reacts to claims (+1) and releases (-1) only.  Counters are
      not clamped, so an unmatched release shows up as a drop below the
      number of outstanding claims. */
  function Bump(quota: map<AdminId, int>, e: Effect): map<AdminId, int> {
    match e
    case Claim(a) => quota[a := Active(quota, a) + 1]
    case Release(a) => quota[a := Active(quota, a) - 1]
    case _ => quota
  }

  /** One effect moves `a`'s counter by at most one, and only when it is a
      claim or release for `a`. */
  lemma BumpActive(quota: map<AdminId, int>, e: Effect, a: AdminId)
    ensures Active(Bump(quota, e), a) == Active(quota, a) + (if e == Claim(a) then 1 else 0) - (if e == Release(a) then 1 else 0)
  {
  }

  function Apply(quota: map<AdminId, int>, effects: seq<Effect>): map<AdminId, int>
    decreases |effects|
  {
    if |effects| == 0 then quota else Apply(Bump(quota, effects[0]), effects[1..])
  }

  /** The quota-ledger effects among `effects` (claims and releases), in
      the order they happened. */
  function QuotaTrail(effects: seq<Effect>): (t: seq<Effect>)
    ensures |t| <= |effects|
  {
    if |effects| == 0 then []
    else (if effects[0].Claim? || effects[0].Release? then [effects[0]] else []) + QuotaTrail(effects[1..])
  }

  /** The trail holds claims and releases only, and every claim or release
      of `effects` is on it. */
  lemma {:induction false} QuotaTrailKinds(effects: seq<Effect>)
    ensures forall i :: 0 <= i < |QuotaTrail(effects)| ==> QuotaTrail(effects)[i].Claim? || QuotaTrail(effects)[i].Release?
    ensures forall e :: e in effects && (e.Claim? || e.Release?) ==> e in QuotaTrail(effects)
    decreases |effects|
  {
    if |effects| > 0 {
      QuotaTrailKinds(effects[1..]);
      assert forall e :: e in effects ==> e == effects[0] || e in effects[1..];
    }
  }

  lemma {:induction false} QuotaTrailAppend(a: seq<Effect>, b: seq<Effect>)
    ensures QuotaTrail(a + b) == QuotaTrail(a) + QuotaTrail(b)
    decreases |a|
  {
    if |a| > 0 {
      assert (a + b)[0] == a[0];
      assert (a + b)[1..] == a[1..] + b;
      QuotaTrailAppend(a[1..], b);
    } else {
      assert a + b == b;
    }
  }

  /** The movement of `a`'s counter over a run of effects: +1 per claim and
      -1 per release for `a`. */
  function Net(effects: seq<Effect>, a: AdminId): int {
    if |effects| == 0 then 0
    else (if effects[0] == Claim(a) then 1 else if effects[0] == Release(a) then -1 else 0) + Net(effects[1..], a)
  }

  /** Only claims and releases move a counter. */
  lemma {:induction false} NetOfTrail(effects: seq<Effect>, a: AdminId)
    ensures Net(effects, a) == Net(QuotaTrail(effects), a)
    decreases |effects|
  {
    if |effects| > 0 {
      NetOfTrail(effects[1..], a);
      var head := if effects[0].Claim? || effects[0].Release? then [effects[0]] else [];
      var t := QuotaTrail(effects[1..]);
      assert QuotaTrail(effects) == head + t;
      if |head| > 0 {
        assert (head + t)[0] == effects[0];
        assert (head + t)[1..] == t;
      } else {
        assert head + t == t;
      }
    }
  }

  lemma {:induction false} NetAppend(a: seq<Effect>, b: seq<Effect>, x: AdminId)
    ensures Net(a + b, x) == Net(a, x) + Net(b, x)
    decreases |a|
  {
    if |a| > 0 {
      assert (a + b)[0] == a[0];
      assert (a + b)[1..] == a[1..] + b;
      NetAppend(a[1..], b, x);
    } else {
      assert a + b == b;
    }
  }

  /** After a run of effects, each admin's counter has moved by its net:
      the claims granted to it minus the releases made for it. */
  lemma {:induction false} ApplyNet(quota: map<AdminId, int>, effects: seq<Effect>, a: AdminId)
    ensures Active(Apply(quota, effects), a) == Active(quota, a) + Net(effects, a)
    decreases |effects|
  {
    if |effects| > 0 {
      BumpActive(quota, effects[0], a);
      ApplyNet(Bump(quota, effects[0]), effects[1..], a);
    }
  }

  /** Folds one operation into the state. */
  function Commit<T>(st: State, s: Step<T>): (st': State)
    ensures st'.log == st.log + s.effects
    ensures st'.sessions == st.sessions + s.writes
    ensures forall a :: Active(st'.quota, a) == Active(st.quota, a) + Net(QuotaTrail(s.effects), a)
  {
    forall a ensures Active(Apply(st.quota, s.effects), a) == Active(st.quota, a) + Net(QuotaTrail(s.effects), a) {
      ApplyNet(st.quota, s.effects, a);
      NetOfTrail(s.effects, a);
    }
    State(Apply(st.quota, s.effects), st.sessions + s.writes, st.log + s.effects)
  }

  /** Two steps each releasing once for `owner` lower `owner`'s counter by
      two. */
  lemma CommitTwoReleases<T, U>(st: State, s1: Step<T>, s2: Step<U>, owner: AdminId)
    requires QuotaTrail(s1.effects) == [Release(owner)] && QuotaTrail(s2.effects) == [Release(owner)]
    ensures Active(Commit(Commit(st, s1), s2).quota, owner) == Active(st.quota, owner) - 2
  {
    CommitAtMostOneRelease(st, s1, true, owner);
    CommitAtMostOneRelease(Commit(st, s1), s2, true, owner);
  }

  /** A step whose quota effects are at most one release, for `owner`,
      lowers `owner`'s counter by one when it released and leaves every other
      counter alone. */
  lemma CommitAtMostOneRelease<T>(st: State, s: Step<T>, released: bool, owner: AdminId)
    requires QuotaTrail(s.effects) == if released then [Release(owner)] else []
    ensures forall a :: Active(Commit(st, s).quota, a) == Active(st.quota, a) - (if released && a == owner then 1 else 0)
  {
    if released {
      forall a ensures Net(QuotaTrail(s.effects), a) == if a == owner then -1 else 0 {
        assert [Release(owner)][1..] == [];
      }
    }
  }

  // ---------------------------------------------------------------------
  // readings of an effect sequence

  /** The publications among `effects`, in order. */
  function Publications(effects: seq<Effect>): (p: seq<Effect>)
    ensures |p| <= |effects|
  {
    if |effects| == 0 then []
    else (if effects[0].Publish? then [effects[0]] else []) + Publications(effects[1..])
  }

  /** The publications are exactly the `Publish` effects of `effects`. */
  lemma {:induction false} PublicationsKinds(effects: seq<Effect>)
    ensures forall i :: 0 <= i < |Publications(effects)| ==> Publications(effects)[i].Publish?
    ensures forall e :: e in effects && e.Publish? ==> e in Publications(effects)
    decreases |effects|
  {
    if |effects| > 0 {
      PublicationsKinds(effects[1..]);
      assert forall e :: e in effects ==> e == effects[0] || e in effects[1..];
    }
  }

  lemma {:induction false} PublicationsAppend(a: seq<Effect>, b: seq<Effect>)
    ensures Publications(a + b) == Publications(a) + Publications(b)
    decreases |a|
  {
    if |a| > 0 {
      assert (a + b)[0] == a[0];
      assert (a + b)[1..] == a[1..] + b;
      PublicationsAppend(a[1..], b);
    } else {
      assert a + b == b;
    }
  }

  /** Both readings distribute over concatenation. */
  lemma ReadingsAppend(a: seq<Effect>, b: seq<Effect>)
    ensures QuotaTrail(a + b) == QuotaTrail(a) + QuotaTrail(b)
    ensures Publications(a + b) == Publications(a) + Publications(b)
  {
    QuotaTrailAppend(a, b);
    PublicationsAppend(a, b);
  }

  /** Effects that touch neither the quota ledger nor the message bus. */
  predicate Quiet(effects: seq<Effect>) {
    forall i :: 0 <= i < |effects| ==> effects[i].Sign? || effects[i].Store? || effects[i].Audit?
  }

  lemma {:induction false} QuietReadings(effects: seq<Effect>)
    requires Quiet(effects)
    ensures QuotaTrail(effects) == [] && Publications(effects) == []
    decreases |effects|
  {
    if |effects| > 0 {
      QuietReadings(effects[1..]);
    }
  }
}
