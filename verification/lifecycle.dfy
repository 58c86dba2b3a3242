/** How the operations compose over one upload's life: what each does to the
    quota counters once committed, the balanced paths, and the paths on
    which the counters drift because nothing guards against a repeated or
    overlapping release. */
module Lifecycle {
  import opened Wrappers
  import opened Errors
  import opened Sessions
  import opened Ledger
  import opened Schema
  import opened Manager

  /** `handleValidation` once committed: the owner's counter drops by one
      exactly when a failure payload was recorded; nothing else moves. */
  lemma ValidationNetQuota(st: State, cfg: Config, uploadId: UploadId, payload: ValidationPayload, r: ValidationReplies)
    ensures var s := HandleValidation(cfg, st.sessions, uploadId, payload, r);
      forall a :: Active(Commit(st, s).quota, a) == Active(st.quota, a) -
        (if ValidationStored(st.sessions, uploadId, r) && payload.status != "success" && a == st.sessions[uploadId].adminId then 1 else 0)
  {
    var released := ValidationStored(st.sessions, uploadId, r) && payload.status != "success";
    CommitAtMostOneRelease(st, HandleValidation(cfg, st.sessions, uploadId, payload, r), released,
                           if released then st.sessions[uploadId].adminId else "");
  }

  /** `markProcessingComplete` once committed: the owner's counter drops by
      one whenever the store recorded the outcome, ready or failed. */
  lemma ProcessingNetQuota(st: State, cfg: Config, uploadId: UploadId, outcome: ProcessingOutcome, nowIso: string,
                           r: ProcessingReplies)
    ensures var s := MarkProcessingComplete(cfg, st.sessions, uploadId, outcome, nowIso, r);
      forall a :: Active(Commit(st, s).quota, a) == Active(st.quota, a) -
        (if uploadId in st.sessions && r.update.Success? && a == st.sessions[uploadId].adminId then 1 else 0)
  {
    var s := MarkProcessingComplete(cfg, st.sessions, uploadId, outcome, nowIso, r);
    if uploadId in st.sessions && r.update.Success? {
      var owner := st.sessions[uploadId].adminId;
      assert QuotaTrail(s.effects) == [Release(owner)];
      CommitAtMostOneRelease(st, s, true, owner);
    } else {
      assert QuotaTrail(s.effects) == [];
      CommitAtMostOneRelease(st, s, false, "");
    }
  }

  /** The rows a successful issuance leaves: the created id now maps to the
      row the store returned from the move to uploading. */
  lemma IssuedRow(st: State, cfg: Config, body: UploadBody, adminId: AdminId, nowMs: nat, objectKey: string,
                  r: IssueReplies)
    requires IssueWithKey(cfg, body, adminId, nowMs, objectKey, r).result.Success?
    ensures var s := IssueWithKey(cfg, body, adminId, nowMs, objectKey, r); var st' := Commit(st, s);
      && r.create.Success? && r.markUploading.Success? && s.result.value.uploadId == r.create.value.id
      && r.create.value.id in st'.sessions && st'.sessions[r.create.value.id] == r.markUploading.value
  {
  }

  /** Issue, then a failed validation: the claim is matched by exactly one
      release, so every counter is back where it started (given that the
      store keeps the owner on the row it returns). */
  lemma IssueThenRejectedBalances(st: State, cfg: Config, body: UploadBody, adminId: AdminId, nowMs: nat, objectKey: string,
                                  ri: IssueReplies, payload: ValidationPayload, rv: ValidationReplies)
    requires IssueWithKey(cfg, body, adminId, nowMs, objectKey, ri).result.Success?
    requires ri.create.Success? && ri.markUploading.Success? && ri.markUploading.value.adminId == adminId
    requires payload.status != "success" && rv.markValidating.Success? && rv.complete.Success?
    ensures var st1 := Commit(st, IssueWithKey(cfg, body, adminId, nowMs, objectKey, ri));
      var st2 := Commit(st1, HandleValidation(cfg, st1.sessions, ri.create.value.id, payload, rv));
      forall a :: Active(st2.quota, a) == Active(st.quota, a)
  {
    var st1 := Commit(st, IssueWithKey(cfg, body, adminId, nowMs, objectKey, ri));
    IssuedRow(st, cfg, body, adminId, nowMs, objectKey, ri);
    IssueNetQuota(st, cfg, body, adminId, nowMs, objectKey, ri);
    ValidationNetQuota(st1, cfg, ri.create.value.id, payload, rv);
  }

  /** A passed validation, once committed, moves no counter and leaves the
      recorded row in place. */
  lemma PassedKeepsQuota(st: State, cfg: Config, uploadId: UploadId, payload: ValidationPayload, r: ValidationReplies)
    requires payload.status == "success" && ValidationStored(st.sessions, uploadId, r)
    ensures var st' := Commit(st, HandleValidation(cfg, st.sessions, uploadId, payload, r));
      && uploadId in st'.sessions && st'.sessions[uploadId] == r.complete.value
      && forall a :: Active(st'.quota, a) == Active(st.quota, a)
  {
    ValidationNetQuota(st, cfg, uploadId, payload, r);
  }

  /** Issue, a passed validation and a recorded processing outcome: again
      one claim and one release, so every counter is back where it started. */
  lemma IssueValidateProcessBalances(st: State, cfg: Config, body: UploadBody, adminId: AdminId, nowMs: nat, objectKey: string,
                                     ri: IssueReplies, payload: ValidationPayload, rv: ValidationReplies,
                                     outcome: ProcessingOutcome, nowIso: string, rp: ProcessingReplies)
    requires IssueWithKey(cfg, body, adminId, nowMs, objectKey, ri).result.Success?
    requires ri.create.Success? && payload.status == "success" && rv.markValidating.Success? && rv.complete.Success?
    requires rv.complete.value.adminId == adminId && rp.update.Success?
    ensures var st1 := Commit(st, IssueWithKey(cfg, body, adminId, nowMs, objectKey, ri));
      var id := ri.create.value.id;
      var st2 := Commit(st1, HandleValidation(cfg, st1.sessions, id, payload, rv));
      var st3 := Commit(st2, MarkProcessingComplete(cfg, st2.sessions, id, outcome, nowIso, rp));
      forall a :: Active(st3.quota, a) == Active(st.quota, a)
  {
    var st1 := Commit(st, IssueWithKey(cfg, body, adminId, nowMs, objectKey, ri));
    IssuedRow(st, cfg, body, adminId, nowMs, objectKey, ri);
    IssueNetQuota(st, cfg, body, adminId, nowMs, objectKey, ri);
    var id := ri.create.value.id;
    var st2 := Commit(st1, HandleValidation(cfg, st1.sessions, id, payload, rv));
    PassedKeepsQuota(st1, cfg, id, payload, rv);
    ProcessingNetQuota(st2, cfg, id, outcome, nowIso, rp);
  }

  /** Nothing guards `markProcessingComplete` against a repeated callback:
      delivered twice for the same upload, it releases twice, lowering the
      owner's counter by two where the single claim raised it by one. */
  lemma DuplicateProcessingOverReleases(st: State, cfg: Config, uploadId: UploadId, outcome: ProcessingOutcome, nowIso: string,
                                        r1: ProcessingReplies, r2: ProcessingReplies)
    requires uploadId in st.sessions && r1.update.Success? && r2.update.Success?
    requires r1.update.value.adminId == st.sessions[uploadId].adminId
    ensures var owner := st.sessions[uploadId].adminId;
      var st1 := Commit(st, MarkProcessingComplete(cfg, st.sessions, uploadId, outcome, nowIso, r1));
      var st2 := Commit(st1, MarkProcessingComplete(cfg, st1.sessions, uploadId, outcome, nowIso, r2));
      Active(st2.quota, owner) == Active(st.quota, owner) - 2
  {
    var owner := st.sessions[uploadId].adminId;
    var s1 := MarkProcessingComplete(cfg, st.sessions, uploadId, outcome, nowIso, r1);
    var sessions1 := Commit(st, s1).sessions;
    assert sessions1 == st.sessions + map[uploadId := r1.update.value];
    assert uploadId in sessions1 && sessions1[uploadId].adminId == owner;
    var s2 := MarkProcessingComplete(cfg, sessions1, uploadId, outcome, nowIso, r2);
    assert QuotaTrail(s2.effects) == [Release(owner)];
    CommitTwoReleases(st, s1, s2, owner);
  }

  /** The same for `handleValidation`: a failure callback delivered twice
      releases twice. */
  lemma DuplicateRejectionOverReleases(st: State, cfg: Config, uploadId: UploadId, payload: ValidationPayload,
                                       r1: ValidationReplies, r2: ValidationReplies)
    requires payload.status != "success"
    requires ValidationStored(st.sessions, uploadId, r1) && r2.markValidating.Success? && r2.complete.Success?
    requires r1.complete.value.adminId == st.sessions[uploadId].adminId
    ensures var owner := st.sessions[uploadId].adminId;
      var st1 := Commit(st, HandleValidation(cfg, st.sessions, uploadId, payload, r1));
      var st2 := Commit(st1, HandleValidation(cfg, st1.sessions, uploadId, payload, r2));
      Active(st2.quota, owner) == Active(st.quota, owner) - 2
  {
    var s1 := HandleValidation(cfg, st.sessions, uploadId, payload, r1);
    var st1 := Commit(st, s1);
    assert st1.sessions[uploadId] == r1.complete.value;
    CommitTwoReleases(st, s1, HandleValidation(cfg, st1.sessions, uploadId, payload, r2), st.sessions[uploadId].adminId);
  }

  /** An issuance whose move to uploading fails has already released its
      claim, yet leaves the created row behind; if a later sweep expires that
      row, its release is a second one and the owner's counter ends one
      below where it started. */
  lemma OrphanRowReleasedTwice(st: State, cfg: Config, body: UploadBody, adminId: AdminId, nowMs: nat, objectKey: string,
                               r: IssueReplies)
    requires Admitted(body) && r.claim.Granted? && r.bucket.Success? && r.sign.Success? && r.create.Success?
    requires r.markUploading.Failure? && r.create.value.adminId == adminId
    ensures var st1 := Commit(st, IssueWithKey(cfg, body, adminId, nowMs, objectKey, r));
      var orphan := r.create.value;
      && orphan.id in st1.sessions && st1.sessions[orphan.id] == orphan
      && Active(Apply(st1.quota, ReleasesFor([orphan])), adminId) == Active(st.quota, adminId) - 1
  {
    var st1 := Commit(st, IssueWithKey(cfg, body, adminId, nowMs, objectKey, r));
    IssueFailureLeavesCreatedRow(cfg, body, adminId, nowMs, objectKey, r);
    IssueNetQuota(st, cfg, body, adminId, nowMs, objectKey, r);
    ApplyNet(st1.quota, ReleasesFor([r.create.value]), adminId);
    ReleasesForTrail([r.create.value], adminId);
    assert [r.create.value][..0] == [];
  }
}
