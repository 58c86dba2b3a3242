/** Upload sessions as the session store holds them, the arguments the
    orchestrator passes to the store, and the status view built from a row. */
module Sessions {
  import opened Wrappers
  import opened Policy

  type UploadId = string
  type AdminId = string

  datatype Status = Pending | Uploading | Validating | Ready | Failed | Expired

  /** The attributes of the open `validationMeta` object that are read
      back; every one may be missing. */
  datatype Meta = Meta(
    durationSeconds: Option<int>,
    width: Option<int>,
    height: Option<int>,
    checksum: Option<string>,
    bitrateKbps: Option<int>,
    manifestUrl: Option<string>,
    defaultThumbnailUrl: Option<string>,
    previewGeneratedAt: Option<string>)

  datatype Session = Session(
    id: UploadId,
    adminId: AdminId,
    contentId: Option<string>,
    assetType: AssetType,
    objectKey: string,
    storageUrl: Option<string>,
    cdnUrl: Option<string>,
    contentType: string,
    sizeBytes: int,
    status: Status,
    expiresAt: int,
    completedAt: Option<int>,
    failureReason: Option<string>,
    validationMeta: Option<Meta>)

  /** What `createSession` is asked to insert. */
  datatype NewSession = NewSession(
    adminId: AdminId,
    contentId: Option<string>,
    assetType: AssetType,
    objectKey: string,
    storageUrl: string,
    cdnUrl: string,
    contentType: string,
    sizeBytes: int,
    uploadUrl: string,
    expiresAt: int,
    formFields: map<string, string>)

  /** What `completeValidation` is asked to record. */
  datatype ValidationUpdate = ValidationUpdate(
    success: bool,
    checksum: Option<string>,
    durationSeconds: Option<int>,
    width: Option<int>,
    height: Option<int>,
    failureReason: Option<string>)

  /** What `updateProcessingOutcome` is asked to record. */
  datatype ProcessingUpdate = ProcessingUpdate(
    ready: bool,
    manifestUrl: Option<string>,
    defaultThumbnailUrl: Option<string>,
    bitrateKbps: Option<int>,
    previewGeneratedAt: Option<string>,
    failureReason: Option<string>,
    existingMeta: Option<Meta>)

  // ---------------------------------------------------------------------
  // status view

  datatype ValidationView = ValidationView(
    durationSeconds: Option<int>,
    width: Option<int>,
    height: Option<int>,
    checksum: Option<string>,
    bitrateKbps: Option<int>)

  datatype ProcessingView = ProcessingView(
    manifestUrl: Option<string>,
    defaultThumbnailUrl: Option<string>,
    previewGeneratedAt: Option<string>)

  datatype StatusView = StatusView(
    uploadId: UploadId,
    status: Status,
    assetType: AssetType,
    objectKey: string,
    storageUrl: Option<string>,
    cdnUrl: Option<string>,
    sizeBytes: int,
    contentType: string,
    expiresAt: int,
    completedAt: Option<int>,
    failureReason: Option<string>,
    validationMeta: Option<ValidationView>,
    processingMeta: Option<ProcessingView>)

  predicate IsEmptyValidation(v: ValidationView) {
    v.durationSeconds.None? && v.width.None? && v.height.None? && v.checksum.None? && v.bitrateKbps.None?
  }

  predicate IsEmptyProcessing(v: ProcessingView) {
    v.manifestUrl.None? && v.defaultThumbnailUrl.None? && v.previewGeneratedAt.None?
  }

  /** The validation group of the stored metadata, dropped when absent or
      when all five of its fields are missing. */
  function ValidationPart(meta: Option<Meta>): (v: Option<ValidationView>)
    ensures v.Some? ==> !IsEmptyValidation(v.value)
    ensures v.None? <==> meta.None? || IsEmptyValidation(ValidationGroup(meta.value))
  {
    match meta
    case None => None
    case Some(m) =>
      var group := ValidationGroup(m);
      if IsEmptyValidation(group) then None else Some(group)
  }

  function ValidationGroup(m: Meta): ValidationView {
    ValidationView(m.durationSeconds, m.width, m.height, m.checksum, m.bitrateKbps)
  }

  /** The processing group of the stored metadata, dropped when absent or
      when all three of its fields are missing. */
  function ProcessingPart(meta: Option<Meta>): (v: Option<ProcessingView>)
    ensures v.Some? ==> !IsEmptyProcessing(v.value)
    ensures v.None? <==> meta.None? || IsEmptyProcessing(ProcessingGroup(meta.value))
  {
    match meta
    case None => None
    case Some(m) =>
      var group := ProcessingGroup(m);
      if IsEmptyProcessing(group) then None else Some(group)
  }

  function ProcessingGroup(m: Meta): ProcessingView {
    ProcessingView(m.manifestUrl, m.defaultThumbnailUrl, m.previewGeneratedAt)
  }

  /** Reads the metadata back out of the two groups of a view; a group that
      was dropped reads as all-missing. */
  function MetaFromView(v: Option<ValidationView>, p: Option<ProcessingView>): Meta {
    var vg := if v.Some? then v.value else ValidationView(None, None, None, None, None);
    var pg := if p.Some? then p.value else ProcessingView(None, None, None);
    Meta(vg.durationSeconds, vg.width, vg.height, vg.checksum, vg.bitrateKbps,
         pg.manifestUrl, pg.defaultThumbnailUrl, pg.previewGeneratedAt)
  }

  const NoMeta := Meta(None, None, None, None, None, None, None, None)

  /** Dropping empty groups loses no field: every field of the stored
      metadata (missing metadata reading as all-missing) is recovered from
      the view. */
  lemma ProjectionLosesNoField(meta: Option<Meta>)
    ensures MetaFromView(ValidationPart(meta), ProcessingPart(meta)) == meta.GetOr(NoMeta)
  {
  }

  /** The view of a session row. */
  function Project(s: Session): (v: StatusView)
    ensures v.uploadId == s.id && v.status == s.status && v.assetType == s.assetType
    ensures v.objectKey == s.objectKey && v.expiresAt == s.expiresAt && v.failureReason == s.failureReason
    ensures v.storageUrl == s.storageUrl && v.cdnUrl == s.cdnUrl && v.sizeBytes == s.sizeBytes
    ensures v.contentType == s.contentType && v.completedAt == s.completedAt
    ensures MetaFromView(v.validationMeta, v.processingMeta) == s.validationMeta.GetOr(NoMeta)
  {
    ProjectionLosesNoField(s.validationMeta);
    StatusView(s.id, s.status, s.assetType, s.objectKey, s.storageUrl, s.cdnUrl, s.sizeBytes,
               s.contentType, s.expiresAt, s.completedAt, s.failureReason,
               ValidationPart(s.validationMeta), ProcessingPart(s.validationMeta))
  }

  /** An admin filter applies only when present and non-empty. */
  predicate FiltersOut(forAdminId: Option<AdminId>, owner: AdminId) {
    forAdminId.Some? && forAdminId.value != "" && forAdminId.value != owner
  }

  /** `getStatus`: nothing for a missing session and nothing for a session
      the (non-empty) filtering admin does not own; otherwise the view. */
  function GetStatus(sessions: map<UploadId, Session>, uploadId: UploadId, forAdminId: Option<AdminId>): (r: Option<StatusView>)
    ensures r.None? <==> uploadId !in sessions || FiltersOut(forAdminId, sessions[uploadId].adminId)
    ensures r.Some? ==> r.value == Project(sessions[uploadId])
  {
    if uploadId !in sessions then None
    else
      var s := sessions[uploadId];
      if FiltersOut(forAdminId, s.adminId) then None else Some(Project(s))
  }

  /** Ownership is not observable: a caller who does not own an existing
      upload receives exactly what they would receive if it did not exist. */
  lemma NonOwnerSeesMissing(sessions: map<UploadId, Session>, uploadId: UploadId, caller: AdminId)
    requires uploadId in sessions && caller != "" && caller != sessions[uploadId].adminId
    ensures GetStatus(sessions, uploadId, Some(caller)) == GetStatus(sessions - {uploadId}, uploadId, Some(caller))
  {
  }
}
