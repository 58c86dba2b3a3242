/** The upload lifecycle orchestrator.  Every collaborator call is an
    abstract step whose reply (a value, or the thrown error) is an input;
    each operation returns the effects it caused, the rows the store
    replied with, and its result or failure. */
module Manager {
  import opened Wrappers
  import opened Strings
  import opened Errors
  import opened Policy
  import opened Naming
  import opened Sessions
  import opened Ledger
  import opened Schema

  /** The configuration the orchestrator reads.  The two optional topics are
      the raw settings, before trimming.  The `media.uploaded` topic is read
      without trimming or a presence check and never decides whether a
      publication is attempted, so it is not a field: only its publish reply
      is modelled. */
  datatype Config = Config(
    uploadBucket: string,
    cdnUploadBaseUrl: string,
    signedUploadTtlSeconds: int,
    previewTopicSetting: Option<string>,
    processedTopicSetting: Option<string>,
    hasAuditSink: bool)

  /** A topic setting counts as configured only when something is left
      after trimming it. */
  function ConfiguredTopic(setting: Option<string>): (topic: Option<string>)
    ensures topic.None? <==> setting.None? || Blank(setting.value)
    ensures topic.Some? ==> topic.value == Trim(setting.value) && |topic.value| > 0
  {
    match setting
    case None => None
    case Some(raw) =>
      var trimmed := Trim(raw);
      TrimEmptyIffBlank(raw);
      if |trimmed| == 0 then None else Some(trimmed)
  }

  /** Audit emission is fire-and-forget: the call is made when a sink is
      configured, and its failure is caught, so it never fails or alters an
      operation and touches neither the quota ledger nor the message bus. */
  function AuditIf(cfg: Config, kind: AuditKind, uploadId: UploadId): (fx: seq<Effect>)
    ensures Quiet(fx) && QuotaTrail(fx) == [] && Publications(fx) == []
    ensures fx == if cfg.hasAuditSink then [Audit(kind, uploadId)] else []
  {
    if cfg.hasAuditSink then [Audit(kind, uploadId)] else []
  }

  /** Compensation: release the claim, then rethrow unchanged. */
  function Compensate<T>(effects: seq<Effect>, writes: map<UploadId, Session>, adminId: AdminId, t: Thrown): (s: Step<T>)
    ensures s.result == Failure(Rethrown(t)) && s.writes == writes
    ensures s.effects == effects + [Release(adminId)]
    ensures QuotaTrail(s.effects) == QuotaTrail(effects) + [Release(adminId)]
    ensures Publications(s.effects) == Publications(effects)
  {
    ReadingsAppend(effects, [Release(adminId)]);
    Step(effects + [Release(adminId)], writes, Failure(Rethrown(t)))
  }

  /** Puts effects caused earlier in the same operation in front of a step. */
  function Prepend<T>(effects: seq<Effect>, s: Step<T>): (s': Step<T>)
    ensures s'.writes == s.writes && s'.result == s.result
    ensures s'.effects == effects + s.effects
    ensures QuotaTrail(s'.effects) == QuotaTrail(effects) + QuotaTrail(s.effects)
    ensures Publications(s'.effects) == Publications(effects) + Publications(s.effects)
  {
    ReadingsAppend(effects, s.effects);
    Step(effects + s.effects, s.writes, s.result)
  }

  /** Appends quiet effects (audits) after a step. */
  function Then<T>(s: Step<T>, quiet: seq<Effect>): (s': Step<T>)
    requires Quiet(quiet)
    ensures s'.writes == s.writes && s'.result == s.result
    ensures s'.effects == s.effects + quiet
    ensures QuotaTrail(s'.effects) == QuotaTrail(s.effects) && Publications(s'.effects) == Publications(s.effects)
  {
    ReadingsAppend(s.effects, quiet);
    QuietReadings(quiet);
    Step(s.effects + quiet, s.writes, s.result)
  }

  // ---------------------------------------------------------------------
  // issueUpload

  datatype ClaimReply = Granted | Refused(error: Thrown)

  datatype SignedPolicy = SignedPolicy(url: string, fields: map<string, string>)

  /** The replies of the five collaborator steps of `issueUpload`.  `bucket`
      is the storage handle taken after the claim and outside the
      compensating `try`; it causes no effect, only its throwing matters. */
  datatype IssueReplies = IssueReplies(
    claim: ClaimReply,
    bucket: Result<(), Thrown>,
    sign: Result<SignedPolicy, Thrown>,
    create: Result<Session, Thrown>,
    markUploading: Result<Session, Thrown>)

  datatype IssueResponse = IssueResponse(
    uploadId: UploadId,
    uploadUrl: string,
    expiresAt: int,
    objectKey: string,
    storageUrl: string,
    fields: map<string, string>,
    cdn: string)

  function StorageUrl(cfg: Config, objectKey: string): string {
    "gs://" + cfg.uploadBucket + "/" + objectKey
  }

  /** The POST policy requested for a key: a length range from 1 to the
      asset ceiling, bound to the exact content type. */
  function SignRequestFor(body: UploadBody, policy: AssetPolicy, objectKey: string, expiresAt: int): (req: SignRequest)
    ensures req.objectKey == objectKey && req.expiresAt == expiresAt
    ensures req.minLength == 1 && req.maxLength == policy.maxSizeBytes && req.contentType == body.contentType
  {
    SignRequest(objectKey, expiresAt, 1, policy.maxSizeBytes, body.contentType, PolicyFields(body, objectKey))
  }

  /** The form fields of the POST policy. */
  function PolicyFields(body: UploadBody, objectKey: string): map<string, string> {
    map[
      "key" := objectKey,
      "Content-Type" := body.contentType,
      "success_action_status" := "201",
      "x-goog-meta-asset-type" := AssetTypeName(body.assetType),
      "x-goog-meta-content-id" := body.contentId.GetOr("")]
  }

  /** The form fields bind the key and the content type the policy's
      conditions require, ask for a 201 answer, and carry the asset type and
      the content reference (empty when absent). */
  lemma PolicyFieldsBindUpload(body: UploadBody, objectKey: string)
    ensures var f := PolicyFields(body, objectKey);
      && f.Keys == {"key", "Content-Type", "success_action_status", "x-goog-meta-asset-type", "x-goog-meta-content-id"}
      && f["key"] == objectKey && f["Content-Type"] == body.contentType && f["success_action_status"] == "201"
      && f["x-goog-meta-asset-type"] == AssetTypeName(body.assetType)
      && f["x-goog-meta-content-id"] == body.contentId.GetOr("")
  {
  }

  predicate Admitted(body: UploadBody) {
    ValidateContent(body.assetType, body.contentType, body.sizeBytes).Success?
  }

  /** The error of the first failing step after a granted claim. */
  function IssueFault(r: IssueReplies): Option<Thrown> {
    if r.sign.Failure? then Some(r.sign.error)
    else if r.create.Failure? then Some(r.create.error)
    else if r.markUploading.Failure? then Some(r.markUploading.error)
    else None
  }

  /** The error of the first failing step after a granted claim, the
      bucket handle included. */
  function IssueError(r: IssueReplies): Option<Thrown> {
    if r.bucket.Failure? then Some(r.bucket.error) else IssueFault(r)
  }

  /** The claim is compensated: the bucket handle was obtained and a step
      inside the `try` failed. */
  predicate Compensated(r: IssueReplies) {
    r.bucket.Success? && IssueFault(r).Some?
  }

  /** The claim outlives the issuance: it was granted and not compensated. */
  predicate ClaimHeld(body: UploadBody, r: IssueReplies) {
    Admitted(body) && r.claim.Granted? && !Compensated(r)
  }

  /** The rows the store answered with: none before a session exists, the
      created row if the move to uploading failed, the uploading row
      otherwise. */
  function IssueWrites(r: IssueReplies): map<UploadId, Session> {
    if r.sign.Failure? || r.create.Failure? then map[]
    else if r.markUploading.Failure? then map[r.create.value.id := r.create.value]
    else map[r.create.value.id := r.markUploading.value]
  }

  /** What a fully successful issuance answers. */
  function Issued(cfg: Config, r: IssueReplies, objectKey: string, expiresAt: int): IssueResponse
    requires r.sign.Success? && r.create.Success?
  {
    IssueResponse(r.create.value.id, r.sign.value.url, expiresAt, objectKey,
                  StorageUrl(cfg, objectKey), r.sign.value.fields, cfg.cdnUploadBaseUrl)
  }

  /** The part of `issueUpload` after a successful signing: create the
      session, move it to uploading, and compensate if either fails. */
  function CreateAndMarkUploading(cfg: Config, body: UploadBody, adminId: AdminId, objectKey: string, expiresAt: int,
                                  r: IssueReplies): (s: Step<IssueResponse>)
    requires r.sign.Success?
    ensures QuotaTrail(s.effects) == (if s.result.Success? then [] else [Release(adminId)])
    ensures Publications(s.effects) == []
    ensures s.result.Success? <==> IssueFault(r).None?
    ensures s.result.Failure? ==> IssueFault(r).Some? && s.result.error == Rethrown(IssueFault(r).value)
    ensures s.result.Success? ==> s.result.value == Issued(cfg, r, objectKey, expiresAt)
    ensures s.writes == IssueWrites(r)
  {
    var signed := r.sign.value;
    var attrs := NewSession(adminId, body.contentId, body.assetType, objectKey, StorageUrl(cfg, objectKey),
                            cfg.cdnUploadBaseUrl, body.contentType, body.sizeBytes, signed.url,
                            expiresAt, signed.fields);
    var fx := [Store(CreateSession(attrs))];
    QuietReadings(fx);
    match r.create
    case Failure(t) => Compensate(fx, map[], adminId, t)
    case Success(created) =>
      var fx := fx + [Store(MarkUploading(created.id))];
      QuietReadings(fx);
      match r.markUploading
      case Failure(t) => Compensate(fx, map[created.id := created], adminId, t)
      case Success(uploading) =>
        Then(Step(fx, map[created.id := uploading], Success(Issued(cfg, r, objectKey, expiresAt))),
             AuditIf(cfg, IntentCreated, created.id))
  }

  /** The claim and the compensating `try` of `issueUpload`, once the
      bucket handle is obtained: sign, then create and mark uploading;
      exactly one release if any of these fails, and
      `AfterClaimReleasesLast` shows it is the last effect. */
  function AfterClaim(cfg: Config, body: UploadBody, adminId: AdminId, policy: AssetPolicy, objectKey: string, expiresAt: int,
                      r: IssueReplies): (s: Step<IssueResponse>)
    ensures |s.effects| >= 2 && s.effects[0] == Claim(adminId)
    ensures s.effects[1] == Sign(SignRequestFor(body, policy, objectKey, expiresAt))
    ensures QuotaTrail(s.effects) == [Claim(adminId)] + (if s.result.Success? then [] else [Release(adminId)])
    ensures Publications(s.effects) == []
    ensures s.result.Success? <==> IssueFault(r).None?
    ensures s.result.Failure? ==> IssueFault(r).Some? && s.result.error == Rethrown(IssueFault(r).value)
    ensures s.result.Success? ==> s.result.value == Issued(cfg, r, objectKey, expiresAt)
    ensures s.writes == IssueWrites(r)
  {
    var fx := [Claim(adminId), Sign(SignRequestFor(body, policy, objectKey, expiresAt))];
    assert QuotaTrail(fx) == [Claim(adminId)] && Publications(fx) == [] by {
      assert fx == [Claim(adminId)] + fx[1..];
      ReadingsAppend([Claim(adminId)], fx[1..]);
      QuietReadings(fx[1..]);
    }
    match r.sign
    case Failure(t) => Compensate(fx, map[], adminId, t)
    case Success(_) => Prepend(fx, CreateAndMarkUploading(cfg, body, adminId, objectKey, expiresAt, r))
  }

  /** On failure the compensating release is the step's last effect:
      nothing follows the `catch` block's release. */
  lemma AfterClaimReleasesLast(cfg: Config, body: UploadBody, adminId: AdminId, policy: AssetPolicy, objectKey: string,
                               expiresAt: int, r: IssueReplies)
    ensures var s := AfterClaim(cfg, body, adminId, policy, objectKey, expiresAt, r);
      s.result.Failure? ==> s.effects[|s.effects| - 1] == Release(adminId)
  {
  }

  /** `issueUpload` once the object key is built.  Admission comes first
      and a refused claim is classified; neither causes any effect.  After a
      granted claim the bucket handle is taken outside the `try`, so its
      throw leaves the claim alone in the trail; once it is obtained the
      trail is the claim alone on success and the claim followed by one
      release on every failure.  `nowMs` is the clock reading taken for the
      expiry. */
  function IssueWithKey(cfg: Config, body: UploadBody, adminId: AdminId, nowMs: nat, objectKey: string,
                        r: IssueReplies): (s: Step<IssueResponse>)
    ensures !Admitted(body) ==>
      s == Step([], map[], Failure(ValidateContent(body.assetType, body.contentType, body.sizeBytes).error))
    ensures Admitted(body) && r.claim.Refused? ==> s == Step([], map[], Failure(ClassifyClaimError(r.claim.error)))
    ensures Admitted(body) && r.claim.Granted? && r.bucket.Failure? ==>
      s == Step([Claim(adminId)], map[], Failure(Rethrown(r.bucket.error)))
    ensures QuotaTrail(s.effects) ==
      if !Admitted(body) || r.claim.Refused? then [] else ClaimTrail(adminId, Compensated(r))
    ensures Publications(s.effects) == []
    ensures s.result.Success? <==> Admitted(body) && r.claim.Granted? && IssueError(r).None?
    ensures Admitted(body) && r.claim.Granted? && s.result.Failure? ==> s.result.error == Rethrown(IssueError(r).value)
    ensures Admitted(body) && r.claim.Granted? && r.bucket.Success? ==>
      var expiresAt := nowMs + cfg.signedUploadTtlSeconds * 1000;
      && |s.effects| >= 2
      && s.effects[1] == Sign(SignRequestFor(body, PolicyFor(body.assetType), objectKey, expiresAt))
      && (s.result.Success? ==> s.result.value == Issued(cfg, r, objectKey, expiresAt))
      && s.writes == IssueWrites(r)
  {
    match ValidateContent(body.assetType, body.contentType, body.sizeBytes)
    case Failure(f) => Step([], map[], Failure(f))
    case Success(policy) =>
      var expiresAt := nowMs + cfg.signedUploadTtlSeconds * 1000;
      match r.claim
      case Refused(t) => Step([], map[], Failure(ClassifyClaimError(t)))
      case Granted =>
        match r.bucket
        case Failure(t) => Step([Claim(adminId)], map[], Failure(Rethrown(t)))
        case Success(_) => AfterClaim(cfg, body, adminId, policy, objectKey, expiresAt, r)
  }

  /** `issueUpload`: the key is built from the asset type, the file name, a
      clock reading `keyStampMs` and the random part; the request signed and
      the key answered are that key, which sits under the asset's prefix and
      past it uses only `[a-zA-Z0-9._-]` when the random part does. */
  function IssueUpload(cfg: Config, body: UploadBody, adminId: AdminId, nowMs: nat, keyStampMs: nat, randomHex: string,
                       r: IssueReplies): (s: Step<IssueResponse>)
    ensures Admitted(body) && r.claim.Granted? && r.bucket.Success? ==>
      var key := BuildObjectKey(body.assetType, body.fileName, keyStampMs, randomHex);
      var n := |PolicyFor(body.assetType).prefix|;
      && |s.effects| >= 2 && s.effects[1].Sign? && s.effects[1].request.objectKey == key
      && (s.result.Success? ==> s.result.value.objectKey == key && s.result.value.storageUrl == StorageUrl(cfg, key))
      && |key| > n + 1 && key[..n + 1] == PolicyFor(body.assetType).prefix + "/"
      && (AllKeyChars(randomHex) ==> AllKeyChars(key[n + 1..]))
  {
    var key := BuildObjectKey(body.assetType, body.fileName, keyStampMs, randomHex);
    ObjectKeyShape(body.assetType, body.fileName, keyStampMs, randomHex);
    IssueWithKey(cfg, body, adminId, nowMs, key, r)
  }

  /** A claim, followed by its compensating release when `released`. */
  function ClaimTrail(adminId: AdminId, released: bool): seq<Effect> {
    [Claim(adminId)] + (if released then [Release(adminId)] else [])
  }

  lemma ClaimTrailNet(adminId: AdminId, released: bool, a: AdminId)
    ensures Net(ClaimTrail(adminId, released), a) == if a == adminId && !released then 1 else 0
  {
    NetAppend([Claim(adminId)], if released then [Release(adminId)] else [], a);
  }

  /** Net quota effect of `issueUpload`: +1 for the caller when the claim
      is held, which is on success and when the bucket handle throws, 0 on
      every other failure, and no other admin's counter moves. */
  lemma IssueNetQuota(st: State, cfg: Config, body: UploadBody, adminId: AdminId, nowMs: nat, objectKey: string,
                      r: IssueReplies)
    ensures var s := IssueWithKey(cfg, body, adminId, nowMs, objectKey, r);
      ClaimHeld(body, r) <==> s.result.Success? || (Admitted(body) && r.claim.Granted? && r.bucket.Failure?)
    ensures var s := IssueWithKey(cfg, body, adminId, nowMs, objectKey, r);
      forall a :: Active(Commit(st, s).quota, a) == Active(st.quota, a) + (if a == adminId && ClaimHeld(body, r) then 1 else 0)
  {
    var s := IssueWithKey(cfg, body, adminId, nowMs, objectKey, r);
    var t := QuotaTrail(s.effects);
    var st' := Commit(st, s);
    forall a ensures Active(st'.quota, a) == Active(st.quota, a) + (if a == adminId && ClaimHeld(body, r) then 1 else 0) {
      assert Active(st'.quota, a) == Active(st.quota, a) + Net(t, a);
      if t != [] {
        ClaimTrailNet(adminId, Compensated(r), a);
      }
    }
  }

  /** Once the bucket handle is obtained a release follows the claim exactly
      when the issuance fails; a throwing bucket handle fails with the claim
      alone, and no claim means a failure. */
  lemma IssueTrail(cfg: Config, body: UploadBody, adminId: AdminId, nowMs: nat, objectKey: string, r: IssueReplies)
    ensures var s := IssueWithKey(cfg, body, adminId, nowMs, objectKey, r);
      QuotaTrail(s.effects) == [] ==> s.result.Failure?
    ensures var s := IssueWithKey(cfg, body, adminId, nowMs, objectKey, r);
      Admitted(body) && r.claim.Granted? && r.bucket.Success? ==> QuotaTrail(s.effects) == ClaimTrail(adminId, s.result.Failure?)
    ensures var s := IssueWithKey(cfg, body, adminId, nowMs, objectKey, r);
      Admitted(body) && r.claim.Granted? && r.bucket.Failure? ==> QuotaTrail(s.effects) == ClaimTrail(adminId, false) && s.result.Failure?
  {
  }

  /** The bucket handle is taken after the claim but outside the `try`
      whose `catch` releases it, so when it throws the error leaves
      `issueUpload` and the caller's counter stays one higher. */
  lemma BucketFailureKeepsClaim(st: State, cfg: Config, body: UploadBody, adminId: AdminId, nowMs: nat, objectKey: string,
                                r: IssueReplies)
    requires Admitted(body) && r.claim.Granted? && r.bucket.Failure?
    ensures var s := IssueWithKey(cfg, body, adminId, nowMs, objectKey, r);
      && s.result == Failure(Rethrown(r.bucket.error)) && s.effects == [Claim(adminId)]
      && Active(Commit(st, s).quota, adminId) == Active(st.quota, adminId) + 1
  {
    IssueNetQuota(st, cfg, body, adminId, nowMs, objectKey, r);
  }

  /** Issuance that fails once the session row exists (the move to
      uploading throws) leaves that row in the store, not marked uploading,
      while its claim has already been released. */
  lemma IssueFailureLeavesCreatedRow(cfg: Config, body: UploadBody, adminId: AdminId, nowMs: nat, objectKey: string,
                                     r: IssueReplies)
    requires Admitted(body) && r.claim.Granted? && r.bucket.Success? && r.sign.Success? && r.create.Success?
    requires r.markUploading.Failure?
    ensures var s := IssueWithKey(cfg, body, adminId, nowMs, objectKey, r);
      && s.writes == map[r.create.value.id := r.create.value]
      && s.result == Failure(Rethrown(r.markUploading.error))
      && QuotaTrail(s.effects) == [Claim(adminId), Release(adminId)]
  {
    assert IssueFault(r) == Some(r.markUploading.error);
    assert IssueWrites(r) == map[r.create.value.id := r.create.value];
    var s := IssueWithKey(cfg, body, adminId, nowMs, objectKey, r);
    assert s.result.Failure?;
  }

  // ---------------------------------------------------------------------
  // handleValidation

  /** The validation callback: `status` is `"success"` or anything else. */
  datatype ValidationPayload = ValidationPayload(
    status: string,
    checksum: Option<string>,
    durationSeconds: Option<int>,
    width: Option<int>,
    height: Option<int>,
    failureReason: Option<string>)

  datatype ValidationReplies = ValidationReplies(
    markValidating: Result<Session, Thrown>,
    complete: Result<Session, Thrown>,
    publishUploaded: Result<(), Thrown>,
    publishPreview: Result<(), Thrown>)

  /** What `completeValidation` is asked to record: success exactly when the
      status is `"success"`, every reported field carried over. */
  function ValidationUpdateOf(payload: ValidationPayload): (u: ValidationUpdate)
    ensures u.success <==> payload.status == "success"
    ensures u.failureReason == payload.failureReason && u.checksum == payload.checksum
    ensures u.durationSeconds == payload.durationSeconds && u.width == payload.width && u.height == payload.height
  {
    ValidationUpdate(payload.status == "success", payload.checksum, payload.durationSeconds,
                     payload.width, payload.height, payload.failureReason)
  }

  /** A preview request goes out only to a configured topic and only for a
      video. */
  predicate PreviewGate(cfg: Config, updated: Session) {
    ConfiguredTopic(cfg.previewTopicSetting).Some? && updated.assetType == Video
  }

  /** The events a passed validation publishes: `media.uploaded`, then, when
      that went through and the gate admits it, a preview request. */
  function PassedEvents(cfg: Config, updated: Session, r: ValidationReplies): seq<Effect> {
    [Publish(MediaUploaded, updated.id)]
      + (if r.publishUploaded.Success? && PreviewGate(cfg, updated) then [Publish(PreviewRequested, updated.id)] else [])
  }

  /** The success branch of `handleValidation`, after the store recorded the
      result.  A publish failure propagates. */
  function ValidationPassed(cfg: Config, uploadId: UploadId, updated: Session, r: ValidationReplies): (s: Step<Session>)
    ensures QuotaTrail(s.effects) == []
    ensures Publications(s.effects) == PassedEvents(cfg, updated, r)
    ensures s.result.Success? <==> r.publishUploaded.Success? && (PreviewGate(cfg, updated) ==> r.publishPreview.Success?)
    ensures s.result.Failure? ==>
      s.result.error == Rethrown(if r.publishUploaded.Failure? then r.publishUploaded.error else r.publishPreview.error)
    ensures s.result.Success? ==> s.result.value == updated
    ensures s.writes == map[uploadId := updated]
  {
    var w := map[uploadId := updated];
    var fx := [Publish(MediaUploaded, updated.id)];
    match r.publishUploaded
    case Failure(t) => Step(fx, w, Failure(Rethrown(t)))
    case Success(_) =>
      var audited := fx + AuditIf(cfg, MediaUploadedAudit, updated.id);
      ReadingsAppend(fx, AuditIf(cfg, MediaUploadedAudit, updated.id));
      if !PreviewGate(cfg, updated) then
        Then(Step(audited, w, Success(updated)), AuditIf(cfg, ValidationPassedAudit, uploadId))
      else
        Prepend(audited, PreviewRequest(cfg, uploadId, updated, r))
  }

  /** The gated preview request of a passed validation and the audits after
      it. */
  function PreviewRequest(cfg: Config, uploadId: UploadId, updated: Session, r: ValidationReplies): (s: Step<Session>)
    ensures QuotaTrail(s.effects) == []
    ensures Publications(s.effects) == [Publish(PreviewRequested, updated.id)]
    ensures s.result.Success? <==> r.publishPreview.Success?
    ensures s.result.Failure? ==> s.result.error == Rethrown(r.publishPreview.error)
    ensures s.result.Success? ==> s.result.value == updated
    ensures s.writes == map[uploadId := updated]
  {
    var w := map[uploadId := updated];
    var preview := [Publish(PreviewRequested, updated.id)];
    assert QuotaTrail(preview) == [] && Publications(preview) == preview by {
      assert preview[1..] == [];
    }
    match r.publishPreview
    case Failure(t) => Step(preview, w, Failure(Rethrown(t)))
    case Success(_) =>
      Then(Then(Step(preview, w, Success(updated)), AuditIf(cfg, PreviewRequestedAudit, updated.id)),
           AuditIf(cfg, ValidationPassedAudit, uploadId))
  }

  /** The error of the first failing collaborator step of a validation. */
  function ValidationFault(r: ValidationReplies): Thrown {
    if r.markValidating.Failure? then r.markValidating.error
    else if r.complete.Failure? then r.complete.error
    else if r.publishUploaded.Failure? then r.publishUploaded.error
    else if r.publishPreview.Failure? then r.publishPreview.error
    else Thrown(false, "", None)
  }

  /** The store accepted both validation steps for a known session. */
  predicate ValidationStored(sessions: map<UploadId, Session>, uploadId: UploadId, r: ValidationReplies) {
    uploadId in sessions && r.markValidating.Success? && r.complete.Success?
  }

  /** `handleValidation`.  An unknown upload is a 404 with no effect.  Once
      the store has recorded the result, a failure payload releases the
      owner's quota once and publishes nothing; a success payload releases
      nothing and publishes the passed-validation events. */
  function HandleValidation(cfg: Config, sessions: map<UploadId, Session>, uploadId: UploadId, payload: ValidationPayload,
                            r: ValidationReplies): (s: Step<Session>)
    ensures uploadId !in sessions ==> s == Step([], map[], Failure(NotFound))
    ensures QuotaTrail(s.effects) ==
      if ValidationStored(sessions, uploadId, r) && payload.status != "success" then [Release(sessions[uploadId].adminId)] else []
    ensures Publications(s.effects) ==
      if ValidationStored(sessions, uploadId, r) && payload.status == "success" then PassedEvents(cfg, r.complete.value, r) else []
    ensures s.result.Success? <==>
      && ValidationStored(sessions, uploadId, r)
      && (payload.status == "success" ==>
            r.publishUploaded.Success? && (PreviewGate(cfg, r.complete.value) ==> r.publishPreview.Success?))
    ensures s.result.Success? ==> s.result.value == r.complete.value
    ensures uploadId in sessions && s.result.Failure? ==> s.result.error == Rethrown(ValidationFault(r))
    ensures ValidationStored(sessions, uploadId, r) ==> s.writes == map[uploadId := r.complete.value]
  {
    if uploadId !in sessions then Step([], map[], Failure(NotFound))
    else
      var fx := [Store(MarkValidating(uploadId))];
      QuietReadings(fx);
      match r.markValidating
      case Failure(t) => Step(fx, map[], Failure(Rethrown(t)))
      case Success(validating) => Prepend(fx, RecordValidation(cfg, uploadId, sessions[uploadId].adminId, payload, validating, r))
  }

  /** The part of `handleValidation` once the session is marked validating:
      record the result, then release or publish. */
  function RecordValidation(cfg: Config, uploadId: UploadId, owner: AdminId, payload: ValidationPayload, validating: Session,
                            r: ValidationReplies): (s: Step<Session>)
    requires r.markValidating.Success?
    ensures QuotaTrail(s.effects) == if r.complete.Success? && payload.status != "success" then [Release(owner)] else []
    ensures Publications(s.effects) ==
      if r.complete.Success? && payload.status == "success" then PassedEvents(cfg, r.complete.value, r) else []
    ensures s.result.Success? <==>
      && r.complete.Success?
      && (payload.status == "success" ==>
            r.publishUploaded.Success? && (PreviewGate(cfg, r.complete.value) ==> r.publishPreview.Success?))
    ensures s.result.Success? ==> s.result.value == r.complete.value
    ensures s.result.Failure? ==> s.result.error == Rethrown(ValidationFault(r))
    ensures r.complete.Success? ==> s.writes == map[uploadId := r.complete.value]
  {
    var fx := [Store(CompleteValidation(uploadId, ValidationUpdateOf(payload)))];
    QuietReadings(fx);
    match r.complete
    case Failure(t) => Step(fx, map[uploadId := validating], Failure(Rethrown(t)))
    case Success(updated) => Prepend(fx, Validated(cfg, uploadId, owner, payload, updated, r))
  }

  /** What follows a recorded validation result: a failure payload releases
      the owner's quota and is audited; a success payload takes the passed
      branch. */
  function Validated(cfg: Config, uploadId: UploadId, owner: AdminId, payload: ValidationPayload, updated: Session,
                     r: ValidationReplies): (s: Step<Session>)
    requires r.markValidating.Success? && r.complete.Success?
    ensures QuotaTrail(s.effects) == if payload.status != "success" then [Release(owner)] else []
    ensures Publications(s.effects) == if payload.status == "success" then PassedEvents(cfg, updated, r) else []
    ensures s.result.Success? <==>
      payload.status == "success" ==> r.publishUploaded.Success? && (PreviewGate(cfg, updated) ==> r.publishPreview.Success?)
    ensures s.result.Success? ==> s.result.value == updated
    ensures s.result.Failure? ==> s.result.error == Rethrown(ValidationFault(r))
    ensures s.writes == map[uploadId := updated]
  {
    if payload.status != "success" then
      var release := [Release(owner)];
      assert QuotaTrail(release) == release && Publications(release) == [] by {
        assert release[1..] == [];
      }
      Then(Step(release, map[uploadId := updated], Success(updated)), AuditIf(cfg, ValidationFailed, uploadId))
    else
      ValidationPassed(cfg, uploadId, updated, r)
  }

  /** The store is asked to mark the session validating before anything
      else, and to record the result right after. */
  lemma ValidationOrder(cfg: Config, sessions: map<UploadId, Session>, uploadId: UploadId, payload: ValidationPayload,
                        r: ValidationReplies)
    requires uploadId in sessions
    ensures var s := HandleValidation(cfg, sessions, uploadId, payload, r);
      && |s.effects| > 0 && s.effects[0] == Store(MarkValidating(uploadId))
      && (r.markValidating.Success? ==>
            |s.effects| > 1 && s.effects[1] == Store(CompleteValidation(uploadId, ValidationUpdateOf(payload))))
  {
    if r.markValidating.Success? {
      var inner := RecordValidation(cfg, uploadId, sessions[uploadId].adminId, payload, r.markValidating.value, r);
      assert |inner.effects| > 0 && inner.effects[0] == Store(CompleteValidation(uploadId, ValidationUpdateOf(payload))) by {
        if r.complete.Success? {
          var v := Validated(cfg, uploadId, sessions[uploadId].adminId, payload, r.complete.value, r);
          assert inner.effects == [Store(CompleteValidation(uploadId, ValidationUpdateOf(payload)))] + v.effects;
        }
      }
    }
  }

  // ---------------------------------------------------------------------
  // markProcessingComplete

  /** The processing outcome as the orchestrator receives it. */
  datatype ProcessingOutcome = ProcessingOutcome(
    manifestUrl: Option<string>,
    defaultThumbnailUrl: Option<string>,
    bitrateKbps: Option<int>,
    previewGeneratedAt: Option<string>,
    failureReason: Option<string>)

  /** `!failureReason`: a missing reason and an empty one both mean ready. */
  predicate IsReady(outcome: ProcessingOutcome) {
    outcome.failureReason.None? || outcome.failureReason.value == ""
  }

  /** What `updateProcessingOutcome` is asked to record.  The preview
      timestamp defaults to `nowIso` on the ready path only and is absent on
      the failed path. */
  function ProcessingUpdateOf(session: Session, outcome: ProcessingOutcome, nowIso: string): (u: ProcessingUpdate)
    ensures u.ready <==> IsReady(outcome)
    ensures u.previewGeneratedAt.Some? <==> u.ready
    ensures u.ready && outcome.previewGeneratedAt.Some? ==> u.previewGeneratedAt == outcome.previewGeneratedAt
    ensures u.ready && outcome.previewGeneratedAt.None? ==> u.previewGeneratedAt == Some(nowIso)
    ensures u.failureReason == outcome.failureReason && u.existingMeta == session.validationMeta
    ensures u.manifestUrl == outcome.manifestUrl && u.defaultThumbnailUrl == outcome.defaultThumbnailUrl
    ensures u.bitrateKbps == outcome.bitrateKbps
  {
    var ready := IsReady(outcome);
    ProcessingUpdate(ready, outcome.manifestUrl, outcome.defaultThumbnailUrl, outcome.bitrateKbps,
                     if ready then Some(outcome.previewGeneratedAt.GetOr(nowIso)) else None,
                     outcome.failureReason, session.validationMeta)
  }

  datatype ProcessingReplies = ProcessingReplies(
    update: Result<Session, Thrown>,
    publishProcessed: Result<(), Thrown>)

  /** `media.processed` goes out only to a configured topic and only for a
      row the store now holds as ready. */
  predicate ProcessedGate(cfg: Config, updated: Session) {
    ConfiguredTopic(cfg.processedTopicSetting).Some? && updated.status == Ready
  }

  /** What follows the release: on the ready path an audit and the gated
      `media.processed`, on the failed path an audit only. */
  function AfterRelease(cfg: Config, uploadId: UploadId, ready: bool, updated: Session, r: ProcessingReplies): (s: Step<Session>)
    ensures QuotaTrail(s.effects) == []
    ensures Publications(s.effects) == if ready && ProcessedGate(cfg, updated) then [Publish(MediaProcessed, updated.id)] else []
    ensures s.result.Success? <==> !(ready && ProcessedGate(cfg, updated)) || r.publishProcessed.Success?
    ensures s.result.Failure? ==> s.result.error == Rethrown(r.publishProcessed.error)
    ensures s.result.Success? ==> s.result.value == updated
    ensures s.writes == map[uploadId := updated]
  {
    var w := map[uploadId := updated];
    if !ready then
      Then(Step([], w, Success(updated)), AuditIf(cfg, ProcessingFailed, uploadId))
    else
      var audited := AuditIf(cfg, ProcessingReady, uploadId);
      if !ProcessedGate(cfg, updated) then
        Then(Step([], w, Success(updated)), audited)
      else
        var publish := [Publish(MediaProcessed, updated.id)];
        match r.publishProcessed
        case Failure(t) => Prepend(audited, Step(publish, w, Failure(Rethrown(t))))
        case Success(_) => Prepend(audited, Then(Step(publish, w, Success(updated)), AuditIf(cfg, MediaProcessedAudit, updated.id)))
  }

  /** `markProcessingComplete`.  An unknown upload is a 404 with no effect.
      Once the store has recorded the outcome, the owner's quota is released
      exactly once, on the ready and on the failed path alike, and before any
      publication. */
  function MarkProcessingComplete(cfg: Config, sessions: map<UploadId, Session>, uploadId: UploadId, outcome: ProcessingOutcome,
                                  nowIso: string, r: ProcessingReplies): (s: Step<Session>)
    ensures uploadId !in sessions ==> s == Step([], map[], Failure(NotFound))
    ensures QuotaTrail(s.effects) ==
      if uploadId in sessions && r.update.Success? then [Release(sessions[uploadId].adminId)] else []
    ensures Publications(s.effects) ==
      if uploadId in sessions && r.update.Success? && IsReady(outcome) && ProcessedGate(cfg, r.update.value)
      then [Publish(MediaProcessed, r.update.value.id)] else []
    ensures s.result.Success? <==>
      && uploadId in sessions && r.update.Success?
      && (IsReady(outcome) && ProcessedGate(cfg, r.update.value) ==> r.publishProcessed.Success?)
    ensures s.result.Success? ==> s.result.value == r.update.value
    ensures uploadId in sessions && s.result.Failure? ==>
      s.result.error == Rethrown(if r.update.Failure? then r.update.error else r.publishProcessed.error)
    ensures uploadId in sessions && r.update.Success? ==> s.writes == map[uploadId := r.update.value]
  {
    if uploadId !in sessions then Step([], map[], Failure(NotFound))
    else
      var update := ProcessingUpdateOf(sessions[uploadId], outcome, nowIso);
      var fx := [Store(UpdateProcessingOutcome(uploadId, update))];
      QuietReadings(fx);
      match r.update
      case Failure(t) => Step(fx, map[], Failure(Rethrown(t)))
      case Success(updated) => Prepend(fx, ProcessingRecorded(cfg, uploadId, sessions[uploadId].adminId, update.ready, updated, r))
  }

  /** Once the store recorded the outcome: release the owner's quota, then
      audit and publish. */
  function ProcessingRecorded(cfg: Config, uploadId: UploadId, owner: AdminId, ready: bool, updated: Session,
                              r: ProcessingReplies): (s: Step<Session>)
    ensures QuotaTrail(s.effects) == [Release(owner)]
    ensures Publications(s.effects) == if ready && ProcessedGate(cfg, updated) then [Publish(MediaProcessed, updated.id)] else []
    ensures s.result.Success? <==> !(ready && ProcessedGate(cfg, updated)) || r.publishProcessed.Success?
    ensures s.result.Failure? ==> s.result.error == Rethrown(r.publishProcessed.error)
    ensures s.result.Success? ==> s.result.value == updated
    ensures s.writes == map[uploadId := updated]
  {
    var release := [Release(owner)];
    assert QuotaTrail(release) == release && Publications(release) == [] by {
      assert release[1..] == [];
    }
    Prepend(release, AfterRelease(cfg, uploadId, ready, updated, r))
  }

  /** The outcome is recorded first; once recorded, the owner's quota is
      released next, before any audit or publication. */
  lemma ProcessingOrder(cfg: Config, sessions: map<UploadId, Session>, uploadId: UploadId, outcome: ProcessingOutcome,
                        nowIso: string, r: ProcessingReplies)
    requires uploadId in sessions
    ensures var s := MarkProcessingComplete(cfg, sessions, uploadId, outcome, nowIso, r);
      && |s.effects| > 0
      && s.effects[0] == Store(UpdateProcessingOutcome(uploadId, ProcessingUpdateOf(sessions[uploadId], outcome, nowIso)))
      && (r.update.Success? ==> |s.effects| > 1 && s.effects[1] == Release(sessions[uploadId].adminId))
  {
  }

  // ---------------------------------------------------------------------
  // expireStale

  /** One release per expired session, for its owner, in sweep order. */
  function ReleasesFor(expired: seq<Session>): (t: seq<Effect>)
    ensures |t| == |expired|
  {
    if |expired| == 0 then [] else ReleasesFor(expired[..|expired| - 1]) + [Release(expired[|expired| - 1].adminId)]
  }

  /** How many of the expired sessions `a` owns. */
  function OwnedCount(expired: seq<Session>, a: AdminId): nat {
    if |expired| == 0 then 0
    else OwnedCount(expired[..|expired| - 1], a) + (if expired[|expired| - 1].adminId == a then 1 else 0)
  }

  /** The releases are all the sweep contributes to the quota trail, and
      each admin's counter drops by the number of expired sessions they own. */
  lemma {:induction false} ReleasesForTrail(expired: seq<Session>, a: AdminId)
    ensures QuotaTrail(ReleasesFor(expired)) == ReleasesFor(expired)
    ensures Net(ReleasesFor(expired), a) == -(OwnedCount(expired, a) as int)
    ensures Publications(ReleasesFor(expired)) == []
    decreases |expired|
  {
    if |expired| > 0 {
      var init := expired[..|expired| - 1];
      var last := [Release(expired[|expired| - 1].adminId)];
      ReleasesForTrail(init, a);
      ReadingsAppend(ReleasesFor(init), last);
      NetAppend(ReleasesFor(init), last, a);
    }
  }

  /** `expireStale`: sweep the sessions past `now`, release once per
      expired session, and answer how many expired.  A failing sweep
      propagates and releases nothing. */
  method ExpireStale(now: int, sweep: Result<seq<Session>, Thrown>) returns (s: Step<nat>)
    ensures sweep.Failure? ==> s == Step([Store(ExpireOlderThan(now))], map[], Failure(Rethrown(sweep.error)))
    ensures sweep.Success? ==> s.result == Success(|sweep.value|)
    ensures sweep.Success? ==> s.effects == [Store(ExpireOlderThan(now))] + ReleasesFor(sweep.value)
    ensures sweep.Success? ==> QuotaTrail(s.effects) == ReleasesFor(sweep.value)
    ensures sweep.Success? ==> forall a :: Net(QuotaTrail(s.effects), a) == -(OwnedCount(sweep.value, a) as int)
    ensures Publications(s.effects) == []
    ensures sweep.Success? ==> s.writes.Keys == set i | 0 <= i < |sweep.value| :: sweep.value[i].id
    ensures sweep.Success? ==> forall id :: id in s.writes ==> s.writes[id] in sweep.value && s.writes[id].id == id
  {
    var fx := [Store(ExpireOlderThan(now))];
    QuietReadings(fx);
    if sweep.Failure? {
      return Step(fx, map[], Failure(Rethrown(sweep.error)));
    }
    var expired := sweep.value;
    var w: map<UploadId, Session> := map[];
    var i := 0;
    while i < |expired|
      invariant 0 <= i <= |expired|
      invariant fx == [Store(ExpireOlderThan(now))] + ReleasesFor(expired[..i])
      invariant w.Keys == set j | 0 <= j < i :: expired[j].id
      invariant forall id :: id in w ==> w[id] in expired[..i] && w[id].id == id
    {
      assert expired[..i + 1][..i] == expired[..i];
      fx := fx + [Release(expired[i].adminId)];
      w := w[expired[i].id := expired[i]];
      i := i + 1;
    }
    assert expired[..i] == expired;
    ReadingsAppend([Store(ExpireOlderThan(now))], ReleasesFor(expired));
    forall a ensures Net(ReleasesFor(expired), a) == -(OwnedCount(expired, a) as int) {
      ReleasesForTrail(expired, a);
    }
    ReleasesForTrail(expired, "");
    s := Step(fx, w, Success(|expired|));
  }
}
