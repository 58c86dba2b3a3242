/** The callback routes the media pipeline calls: the validation result and
    the processing result for one upload.  Each checks the `uploadId` path
    parameter, hands the body to the orchestrator and answers `accepted`
    only once the orchestrator returned without throwing.  The body's own
    schema parse, which sits between the two, is not modelled: every body
    here is one that parse accepted. */
module ValidationRoutes {
  import opened Wrappers
  import opened Errors
  import opened Sessions
  import opened Ledger
  import opened Manager
  import opened Routes

  /** The processing callback body, told apart by its `status`. */
  datatype ProcessingBody =
    | ReadyBody(manifestUrl: Option<string>, defaultThumbnailUrl: Option<string>, bitrateKbps: Option<int>,
                previewGeneratedAt: Option<string>)
    | FailedBody(failureReason: Option<string>)

  /** The outcome handed to the orchestrator: a ready body forwards its four
      ready fields and no failure reason; a failed body forwards only its
      failure reason. */
  function OutcomeOf(body: ProcessingBody): (o: ProcessingOutcome)
    ensures body.ReadyBody? ==>
      && o.failureReason.None?
      && o.manifestUrl == body.manifestUrl && o.defaultThumbnailUrl == body.defaultThumbnailUrl
      && o.bitrateKbps == body.bitrateKbps && o.previewGeneratedAt == body.previewGeneratedAt
    ensures body.FailedBody? ==>
      && o.failureReason == body.failureReason
      && o.manifestUrl.None? && o.defaultThumbnailUrl.None? && o.bitrateKbps.None? && o.previewGeneratedAt.None?
  {
    match body
    case ReadyBody(m, t, b, p) => ProcessingOutcome(m, t, b, p, None)
    case FailedBody(reason) => ProcessingOutcome(None, None, None, None, reason)
  }

  /** Which path the orchestrator takes for a body: every ready body is
      ready, and so is a failed body whose reason is missing or empty. */
  lemma ReadyPathOf(body: ProcessingBody)
    ensures IsReady(OutcomeOf(body)) <==> body.ReadyBody? || body.failureReason.None? || body.failureReason == Some("")
  {
  }

  /** The accepted answer. */
  datatype Accepted = Accepted

  /** `POST /uploads/:uploadId/validation`. */
  function ValidationRoute(cfg: Config, sessions: map<UploadId, Session>, uploadId: string, payload: ValidationPayload,
                           r: ValidationReplies): (h: Handled<Accepted>)
    ensures !IsUuid(uploadId) ==> h == Handled([], map[], Failure(InvalidInput))
    ensures h.result.Success? <==>
      && IsUuid(uploadId) && ValidationStored(sessions, uploadId, r)
      && (payload.status == "success" ==>
            r.publishUploaded.Success? && (PreviewGate(cfg, r.complete.value) ==> r.publishPreview.Success?))
    ensures QuotaTrail(h.effects) ==
      if IsUuid(uploadId) && ValidationStored(sessions, uploadId, r) && payload.status != "success"
      then [Release(sessions[uploadId].adminId)] else []
    ensures IsUuid(uploadId) && uploadId !in sessions ==> h == Handled([], map[], Failure(Passed(NotFound)))
    ensures IsUuid(uploadId) && uploadId in sessions && h.result.Failure? ==> h.result.error == Passed(Rethrown(ValidationFault(r)))
  {
    if !IsUuid(uploadId) then Handled([], map[], Failure(InvalidInput))
    else
      var s := HandleValidation(cfg, sessions, uploadId, payload, r);
      Handled(s.effects, s.writes, match s.result case Success(_) => Success(Accepted) case Failure(f) => Failure(Passed(f)))
  }

  /** `POST /uploads/:uploadId/processing`. */
  function ProcessingRoute(cfg: Config, sessions: map<UploadId, Session>, uploadId: string, body: ProcessingBody,
                           nowIso: string, r: ProcessingReplies): (h: Handled<Accepted>)
    ensures !IsUuid(uploadId) ==> h == Handled([], map[], Failure(InvalidInput))
    ensures h.result.Success? <==>
      && IsUuid(uploadId) && uploadId in sessions && r.update.Success?
      && (IsReady(OutcomeOf(body)) && ProcessedGate(cfg, r.update.value) ==> r.publishProcessed.Success?)
    ensures IsUuid(uploadId) && uploadId !in sessions ==> h == Handled([], map[], Failure(Passed(NotFound)))
    ensures IsUuid(uploadId) && uploadId in sessions && h.result.Failure? ==>
      h.result.error == Passed(Rethrown(if r.update.Failure? then r.update.error else r.publishProcessed.error))
    ensures QuotaTrail(h.effects) ==
      if IsUuid(uploadId) && uploadId in sessions && r.update.Success? then [Release(sessions[uploadId].adminId)] else []
    ensures Publications(h.effects) ==
      if IsUuid(uploadId) && uploadId in sessions && r.update.Success? && IsReady(OutcomeOf(body))
         && ProcessedGate(cfg, r.update.value)
      then [Publish(MediaProcessed, r.update.value.id)] else []
  {
    if !IsUuid(uploadId) then Handled([], map[], Failure(InvalidInput))
    else
      var s := MarkProcessingComplete(cfg, sessions, uploadId, OutcomeOf(body), nowIso, r);
      Handled(s.effects, s.writes, match s.result case Success(_) => Success(Accepted) case Failure(f) => Failure(Passed(f)))
  }

  /** A failed processing callback whose reason is empty is recorded as
      ready and, with the topic configured and the row ready, announces the
      media as processed. */
  lemma EmptyFailureReasonAnnouncesProcessed(cfg: Config, sessions: map<UploadId, Session>, uploadId: string, nowIso: string,
                                             r: ProcessingReplies)
    requires IsUuid(uploadId) && uploadId in sessions && r.update.Success? && ProcessedGate(cfg, r.update.value)
    ensures Publications(ProcessingRoute(cfg, sessions, uploadId, FailedBody(Some("")), nowIso, r).effects)
         == [Publish(MediaProcessed, r.update.value.id)]
  {
    ReadyPathOf(FailedBody(Some("")));
  }
}
