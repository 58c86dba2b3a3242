# Upload lifecycle orchestrator — a Dafny model

This project models the upload service's orchestrator (`UploadManager`) and
the small pure pieces around it. It covers:

- the asset-policy table and content admission;
- file-name cleaning and object-key construction;
- `issueUpload` with its quota claim and compensating release;
- `getStatus` with its ownership hiding and metadata projection;
- the validation and processing callbacks, with their releases and gated publications;
- the stale-session sweep;
- the admin routes (`ensureAdmin` header parsing, the error mapping of the issue route, the status route's 404);
- the internal credential route (`buildResponse`);
- the callback routes, with the processing-body translation;
- the request-body bounds of the upload schema.

The collaborators are not modelled as code. These are GCS signing, the
session store, the quota service, Pub/Sub and the audit sink. Each call is
an effect recorded in order (`Ledger.Effect`), and each collaborator's
answer is a parameter: a reply that either carries a value or a thrown
error. An operation is a pure function from its inputs and replies to a
`Step`, which holds:

- the effects, in order;
- the rows the store answered with;
- the result or the failure.

`Ledger.Commit` folds a step into a `State` made of per-admin quota
counters, the session map and the effect log. A claim adds one to the
owner's counter and a release takes one away. Counters are never clamped,
so a release without a matching claim shows up as a drop.

Two readings of an effect sequence carry most properties:

- `QuotaTrail` is the claims and releases, in order.
- `Publications` is the publications, in order.

Each operation states its exact trail and publications. Lemmas turn these
into counter movements once the step is committed. The `Lifecycle` module
composes operations:

- issue, then a failed validation, balances;
- issue, validate, then process, balances;
- a repeated processing callback releases twice;
- a repeated failed validation releases twice;
- an issuance whose move to uploading fails releases its claim but leaves the row, so a later sweep can release it again.

Behaviours of the code worth knowing:

- **Publish failures propagate.** A failure to publish `media.uploaded`, the preview request or `media.processed` (`src/services/upload-manager.ts:333`, `:384`, `:440`, none of them caught) makes the callback fail after the store writes. Only `media.processed` also comes after a quota release (`:596`). A passed validation releases nothing, so its two publications fail with the quota untouched.
- **A failed move to uploading leaves an orphan row.** `issueUpload` releases the claim, but the created row stays in the store, not marked uploading (`Manager.IssueFailureLeavesCreatedRow`). If that row is later swept, its owner is released a second time (`Lifecycle.OrphanRowReleasedTwice`).
- **Nothing guards against repeated callbacks.** Both callbacks release again when delivered twice (`Lifecycle.DuplicateProcessingOverReleases`, `Lifecycle.DuplicateRejectionOverReleases`).
- **An empty failure reason counts as ready.** `!outcome.failureReason` treats an empty string as ready, so a `failed` processing body with an empty reason is recorded as ready. It publishes `media.processed` when the processed topic is configured and the stored row is READY (`ValidationRoutes.EmptyFailureReasonAnnouncesProcessed`). This assumes the callback schema, which is not part of this model, accepts an empty reason.
- **Cleaning can leave a trailing dash.** File-name cleaning cuts to 160 characters after whitespace runs become `-`, so a cut can end on such a dash (`Naming.TruncationCanLeaveTrailingDash`).
- **The clock is read twice.** `issueUpload` reads the clock once for the claim and the expiry and once more inside `buildObjectKey`. The model takes two readings, `nowMs` and `keyStampMs`. The internal route likewise reads the clock separately for the key and for the expiry.
- **The upload schema lacks fields the orchestrator reads.** `createUploadUrlBodySchema` (`src/schemas/upload.ts:3-7`) has no `assetType` or `contentId`, yet the orchestrator reads both. They are separate inputs of `Schema.UploadBody`. As the schema stands, `parse` at `src/routes/admin.ts:57` drops unknown keys, so both reach the orchestrator as `undefined`. `assetPolicies[undefined]` is then `undefined`, and reading its patterns at `src/services/upload-manager.ts:103-104` throws a `TypeError` with no status code, which the route turns into a 500. Taking the asset type as its own input lets the model state what the orchestrator does for each asset type.
- **The callback schemas are not exported.** `src/routes/validation.ts:3-6` imports `validationCallbackBodySchema` and `processingCallbackBodySchema`, and `src/services/upload-manager.ts:13-16` imports the `ValidationCallbackBody` type, from `src/schemas/upload.ts`. That file (lines 1-17) exports none of them. The bodies are therefore modelled by their fields alone: `Manager.ValidationPayload` and `ValidationRoutes.ProcessingBody`.
- **The topic settings are optional.** The orchestrator reads the preview and processed topic settings with `?.trim()` (`src/services/upload-manager.ts:82-85`), so they are optional fields of `Manager.Config`.
- **The `media.uploaded` topic is read without a check.** `publishMediaUploaded` reads `MEDIA_UPLOADED_TOPIC` at `src/services/upload-manager.ts:318`, with no trim and no presence check, and publishes to it whatever it holds. The configuration in `src/config/index.ts` has no such key, so as written every passed validation publishes to an undefined topic. `Manager.Config` has no field for it: the publication is always attempted, and an absent topic shows only as the `publishUploaded` reply failing.
- **A throwing bucket handle keeps the claim.** `this.storage.bucket(...)` at `src/services/upload-manager.ts:163` runs after the granted claim but before the `try` whose `catch` releases it (`:165-247`). If it throws, for example for an empty bucket name, which the configuration accepts, the error leaves `issueUpload` with no release and the caller's counter stays one higher (`Manager.BucketFailureKeepsClaim`).

Strings are sequences of UTF-16 code units. Whitespace is the set that
JavaScript's `trim` and `\s` use.

## Model

| member | source | states |
|---|---|---|
| Policy.PolicyFor | src/services/upload-manager.ts:20-43 | every asset prefix is non-empty and free of `/`, so a key's first segment is its prefix |
| Policy.ValidateContent | src/services/upload-manager.ts:102-120 | admitted iff the type matches the asset's pattern and the size is at most the ceiling; an unsupported type is 415 whatever the size; 413 iff the type is allowed and the size strictly exceeds the ceiling; success answers the asset's policy |
| Policy.CeilingIsInclusive | src/services/upload-manager.ts:113-118 | exactly the ceiling is admitted and one byte more is 413; the ceilings are 512 MiB for video and 25 MiB for images |
| Policy.AdmissionExamples | src/services/upload-manager.ts:102-120 | a 600 MB video is too large, a 10 MB PNG thumbnail is admitted, a PNG declared as video and a GIF banner are unsupported |
| Errors.ClassifyClaimError | src/services/upload-manager.ts:144-162 | a claim error becomes a 429 with the matching code iff it is an `Error` whose message is one of the two quota codes; anything else is rethrown unchanged |
| Strings.TrimIsSlice | src/services/upload-manager.ts:47 | the trimmed text is the slice of the input that begins after its leading whitespace |
| Strings.TrimEmptyIffBlank | src/services/upload-manager.ts:47 | trimming leaves nothing exactly when the name is all whitespace |
| Strings.DashRunsNoWhitespace | src/services/upload-manager.ts:48 | after whitespace runs become `-` no whitespace is left |
| Strings.KeySafeIdempotent | src/services/upload-manager.ts:49 | replacing characters outside `[a-zA-Z0-9._-]` by `_` yields only such characters and changes nothing a second time |
| Strings.ToLowerShape | src/routes/admin.ts:26 | lower-casing leaves no capital, keeps whitespace in place and is idempotent |
| Strings.SplitJoin | src/routes/admin.ts:25 | splitting on a separator yields pieces free of it that join back to the original text |
| Strings.DecimalRoundTrip | src/services/upload-manager.ts:128 | the decimal spelling of a timestamp reads back as the same number |
| Naming.SanitizeFileName | src/services/upload-manager.ts:45-51 | the cleaned name has at most 160 characters and is empty iff the trimmed name is |
| Naming.SanitizeFileNameShape | src/services/upload-manager.ts:45-51 | the cleaned name uses only `[a-zA-Z0-9._-]`, is empty exactly for an all-whitespace name, and starts from the first non-whitespace character |
| Naming.SanitizeKeepsLastWhenShort | src/services/upload-manager.ts:45-51 | when nothing is cut, the last character comes from the last non-whitespace character, so trailing whitespace never becomes a dash |
| Naming.NoLeadingDashFromWhitespace | src/services/upload-manager.ts:46-48 | the cleaned name starts with `-` iff the trimmed name does |
| Naming.SanitizeIdempotent | src/services/upload-manager.ts:45-51 | cleaning twice equals cleaning once |
| Naming.TruncationCanLeaveTrailingDash | src/services/upload-manager.ts:48-50 | 159 clean characters followed by ` b` clean to those characters and a trailing `-` |
| Naming.StampedNameRoundTrip | src/services/upload-manager.ts:128 | `<stamp>-<random>-<name>` parses back into its three parts when the random part has no `-` |
| Naming.ObjectKeyShape | src/services/upload-manager.ts:122-129 | the key starts with the asset prefix and `/`, and past it uses only `[a-zA-Z0-9._-]` when the random part does |
| Naming.ObjectKeyRoundTrip | src/services/upload-manager.ts:122-129 | a key parses back into the prefix, the decimal timestamp, the random part and the cleaned name |
| Ledger.BumpActive | src/services/upload-manager.ts:145 | a granted claim raises the claiming admin's counter by one and a release lowers the named admin's by one; no other call moves any counter |
| Ledger.NetOfTrail | src/services/upload-manager.ts:143-247 | a counter's movement over a run of calls depends only on the claims and releases among them |
| Ledger.ApplyNet | src/services/upload-manager.ts:669-673 | after a run of calls each admin's counter has moved by its claims minus its releases |
| Ledger.Commit | src/services/upload-manager.ts:143-247 | folding an operation into the state appends its calls to the log, overlays the rows the store answered and moves each counter by the net of the operation's claims and releases |
| Ledger.CommitAtMostOneRelease | src/services/upload-manager.ts:498 | an operation whose only quota call is one release lowers that owner's counter by one and no other |
| Ledger.CommitTwoReleases | src/services/upload-manager.ts:596 | two operations each releasing once for the same owner lower that owner's counter by two |
| Manager.ConfiguredTopic | src/services/upload-manager.ts:82-85 | a topic setting counts iff something is left after trimming it, and the topic is the trimmed value |
| Manager.AuditIf | src/services/upload-manager.ts:88-100 | an audit is one quiet effect when a sink exists and nothing otherwise; it never touches the quota or the bus and never fails |
| Manager.SignRequestFor | src/services/upload-manager.ts:166-174 | the signed policy is for this key and expiry, with a length range from 1 to the asset ceiling and the declared content type |
| Manager.PolicyFieldsBindUpload | src/services/upload-manager.ts:175-181 | the form fields are exactly the key, the content type, a 201 status, the asset type and the content reference (empty when absent) |
| Manager.Compensate | src/services/upload-manager.ts:244-247 | compensation appends exactly one release for the caller and rethrows the error unchanged |
| Manager.AfterClaimReleasesLast | src/services/upload-manager.ts:244-247 | when a step inside the compensating `try` fails, the compensating release is the last call made |
| Manager.CreateAndMarkUploading | src/services/upload-manager.ts:184-247 | after signing, a create or move-to-uploading failure releases once and rethrows it; success releases nothing and answers the created id, signed URL and fields |
| Manager.AfterClaim | src/services/upload-manager.ts:165-247 | the claim followed by the compensating `try`: the effects start with the claim and the signing request; the trail is the claim, plus one release iff a step inside the `try` failed |
| Manager.IssueWithKey | src/services/upload-manager.ts:131-248 | admission and claim rejections cause no effect; a throwing bucket handle fails with the claim as the only effect; success iff admitted, granted and every later step succeeded; the first failing step's error is rethrown; the trail is the claim plus one release iff a step inside the `try` failed; the store rows are those the store answered |
| Manager.IssueUpload | src/services/upload-manager.ts:136-140 | the key signed and answered is the built key, under the asset prefix and clean past it when the random part is |
| Manager.IssueNetQuota | src/services/upload-manager.ts:143-247 | once committed, the caller's counter rises by one iff the claim is held, which is on success or when the bucket handle throws, and is unchanged on every other failure; no other counter moves |
| Manager.IssueTrail | src/services/upload-manager.ts:143-247 | no claim means a failure; once the bucket handle is obtained the trail is a claim with a release exactly on failure; a throwing bucket handle fails with the claim alone |
| Manager.BucketFailureKeepsClaim | src/services/upload-manager.ts:145-165 | a bucket handle that throws after a granted claim fails the issuance with the claim as its only call, leaving the caller's counter one higher |
| Manager.IssueFailureLeavesCreatedRow | src/services/upload-manager.ts:184-198 | when the move to uploading throws, the created row stays, the error is rethrown and the trail is claim then release |
| Manager.ValidationUpdateOf | src/services/upload-manager.ts:488-495 | the store is told success iff the status is `"success"`, with every reported field carried over |
| Manager.PreviewRequest | src/services/upload-manager.ts:367-411 | a preview request publishes once, releases nothing and fails exactly when its publish fails |
| Manager.ValidationPassed | src/services/upload-manager.ts:527-555 | the passed branch releases nothing; it publishes `media.uploaded`, then a preview request only for a video with a configured topic and only if the first publish went through |
| Manager.Validated | src/services/upload-manager.ts:497-555 | a recorded failure payload releases the owner once and publishes nothing; a success payload takes the passed branch |
| Manager.RecordValidation | src/services/upload-manager.ts:489-555 | a failing store step rethrows with no release or publication; otherwise the recorded result decides between release and publication |
| Manager.HandleValidation | src/services/upload-manager.ts:474-556 | an unknown id is a 404 with no effect; one release iff the result was recorded and the status is not success; publications only on success; the first failing step's error is rethrown |
| Manager.ValidationOrder | src/services/upload-manager.ts:486-495 | the store is asked to mark validating first and to record the result second |
| Manager.ProcessingUpdateOf | src/services/upload-manager.ts:575-594 | ready iff the failure reason is missing or empty; the preview timestamp is present iff ready and defaults to the current time; the other fields are forwarded |
| Manager.AfterRelease | src/services/upload-manager.ts:598-664 | after the release, `media.processed` is published only when ready, the topic is configured and the row is READY; only that publish can fail |
| Manager.ProcessingRecorded | src/services/upload-manager.ts:596-664 | once the outcome is recorded there is exactly one release for the owner, on the ready and the failed path alike |
| Manager.MarkProcessingComplete | src/services/upload-manager.ts:558-667 | an unknown id is a 404 with no effect; one release iff the store recorded the outcome; `media.processed` only on the gated ready path; a store or publish error is rethrown |
| Manager.ProcessingOrder | src/services/upload-manager.ts:586-596 | the outcome is recorded first and the release comes right after, before any audit or publication |
| Manager.ReleasesForTrail | src/services/upload-manager.ts:669-673 | the sweep's releases are its whole trail and lower each admin's counter by the number of expired sessions they own |
| Manager.ExpireStale | src/services/upload-manager.ts:669-681 | one release per expired session, in order, and the answer is their number; the rows written are exactly the swept rows, under their own ids; a failing sweep releases nothing |
| Sessions.ValidationPart | src/services/upload-manager.ts:260-290 | the validation group is omitted iff the metadata is missing or all five of its fields are |
| Sessions.ProcessingPart | src/services/upload-manager.ts:272-298 | the processing group is omitted iff the metadata is missing or all three of its fields are |
| Sessions.ProjectionLosesNoField | src/services/upload-manager.ts:260-298 | dropping empty groups loses no metadata field |
| Sessions.Project | src/services/upload-manager.ts:300-314 | the view carries every column of the row (id, status, asset type, key, storage and CDN URLs, size, content type, expiry, completion time, failure reason) and all of its metadata |
| Sessions.GetStatus | src/services/upload-manager.ts:250-258 | nothing iff the session is missing or a non-empty admin filter differs from the owner; otherwise the row's view |
| Sessions.NonOwnerSeesMissing | src/services/upload-manager.ts:256-258 | a non-owner gets exactly what they would get if the upload did not exist |
| Schema.SchemaValidVideoFitsCeiling | src/schemas/upload.ts:6 | the schema's size bound equals the video ceiling, so a schema-valid video of an allowed type is admitted |
| Schema.SchemaValidImageMayExceedCeiling | src/schemas/upload.ts:6 | a schema-valid image is refused as too large iff it exceeds 25 MiB, and such bodies exist |
| Routes.UuidIffGroups | src/routes/validation.ts:8-10 | five hex groups of lengths 8, 4, 4, 4 and 12 joined by dashes form a UUID, and only then |
| Lifecycle.ValidationNetQuota | src/services/upload-manager.ts:497-498 | once committed, the owner's counter drops by one iff a failure payload was recorded; nothing else moves |
| Lifecycle.ProcessingNetQuota | src/services/upload-manager.ts:596 | once committed, the owner's counter drops by one whenever the outcome was recorded |
| Lifecycle.IssuedRow | src/services/upload-manager.ts:184-198 | a successful issuance stores the row returned by the move to uploading under the new id |
| Lifecycle.IssueThenRejectedBalances | src/services/upload-manager.ts:497-498 | issuing and then failing validation leaves every counter where it started |
| Lifecycle.PassedKeepsQuota | src/services/upload-manager.ts:527-555 | a passed validation moves no counter and stores the recorded row |
| Lifecycle.IssueValidateProcessBalances | src/services/upload-manager.ts:596 | issue, a passed validation and a recorded outcome leave every counter where it started |
| Lifecycle.DuplicateProcessingOverReleases | src/services/upload-manager.ts:568-596 | the same processing callback delivered twice lowers the owner's counter by two |
| Lifecycle.DuplicateRejectionOverReleases | src/services/upload-manager.ts:479-498 | a failure validation delivered twice lowers the owner's counter by two |
| Lifecycle.OrphanRowReleasedTwice | src/services/upload-manager.ts:184-247 | after a failed move to uploading the created row remains, and sweeping it leaves the owner one below where they started |
| AdminRoutes.FirstValue | src/routes/admin.ts:19-22 | a repeated header counts by its first value, and an empty array counts as absent |
| AdminRoutes.NormaliseRoles | src/routes/admin.ts:23-27 | no more roles than pieces, and no empty role |
| AdminRoutes.NormaliseRolesMembers | src/routes/admin.ts:23-27 | a role is listed iff it is non-empty and some piece trims and lower-cases to it |
| AdminRoutes.AdminRoleIffEntry | src/routes/admin.ts:22-33 | the admin role is held iff some comma-separated entry of the first roles value normalises to exactly `admin` |
| AdminRoutes.EnsureAdmin | src/routes/admin.ts:15-38 | 401 iff the identity is missing or empty, whatever the roles; 403 iff identified without the `admin` role; otherwise the identity and roles |
| AdminRoutes.RepeatedHeadersUseFirst | src/routes/admin.ts:19-22 | repeated identity and roles headers are judged by their first values alone |
| AdminRoutes.PaddedAdminRoleGrants | src/routes/admin.ts:23-35 | the roles header `" Admin ,"` grants the admin role |
| AdminRoutes.SuperadminIsForbidden | src/routes/admin.ts:33-35 | `superadmin` alone is a 403 |
| AdminRoutes.IssueErrorOf | src/routes/admin.ts:64-78 | an `Error` with a non-zero status code passes through unchanged; anything else becomes a 500 |
| AdminRoutes.IssueErrorStatuses | src/routes/admin.ts:64-78 | the orchestrator's own rejections keep 415, 413, 429 or 404; status code 0 or a non-`Error` becomes a 500 |
| AdminRoutes.IssueRoute | src/routes/admin.ts:55-79 | caller check, then schema check, then issuance for that caller, with failures mapped; the trail is the claim plus a release exactly when a step inside the orchestrator's `try` failed |
| AdminRoutes.IssueRouteNetQuota | src/routes/admin.ts:55-79 | only the authenticated caller's counter moves, by one on success or when the bucket handle throws after the claim, and not at all otherwise |
| AdminRoutes.StatusRoute | src/routes/admin.ts:92-103 | caller check, then UUID check; success iff the upload exists and the caller owns it; otherwise 404 |
| AdminRoutes.StatusHidesOthersUploads | src/routes/admin.ts:95-101 | a caller who does not own an upload gets the same answer as if it did not exist |
| InternalRoutes.StripTrailingSlash | src/routes/internal.ts:20 | the result is a prefix of the base URL at most one character shorter, and shorter iff the URL ends in `/` |
| InternalRoutes.StripKeepsSecondSlash | src/routes/internal.ts:20 | only one of two trailing slashes is removed |
| InternalRoutes.InternalKeyShape | src/routes/internal.ts:17-19 | the internal key uses only `[a-zA-Z0-9._-]`, has no `/` and keeps the name's full length |
| InternalRoutes.InternalKeyRoundTrip | src/routes/internal.ts:19 | the internal key parses back into stamp, suffix and cleaned name, with no asset prefix |
| InternalRoutes.NamesAgreeIffNoWhitespace | src/routes/internal.ts:18 | up to 160 characters the internal cleaning agrees with the orchestrator's exactly when the name holds no whitespace; past 160 it keeps more characters |
| InternalRoutes.WhitespaceNamesDiffer | src/routes/internal.ts:18 | a name of at most 160 characters holding whitespace is cleaned differently by the two routes |
| InternalRoutes.BuildResponse | src/routes/internal.ts:11-33 | the fields are exactly key, bucket, policy and signature; the expiry is the second clock reading plus the lifetime in ms; the cdn value is the base URL's host |
| InternalRoutes.UploadUrlEndsWithKey | src/routes/internal.ts:20 | the URL is the base URL (one trailing slash dropped), `/`, the bucket field, `/` and the key field, and the key is a single path segment |
| InternalRoutes.CreateUploadUrlRoute | src/routes/internal.ts:45-58 | a response iff the body meets its schema, built from the configured bucket, base URL and lifetime |
| InternalRoutes.LongNamesKeptWhole | src/routes/internal.ts:46-52 | a schema-valid name appears in the key cleaned but at full length |
| ValidationRoutes.OutcomeOf | src/routes/validation.ts:44-53 | a ready body forwards its four ready fields and no reason; a failed body forwards only its reason |
| ValidationRoutes.ReadyPathOf | src/routes/validation.ts:44-53 | the orchestrator takes the ready path iff the body is ready or its failure reason is missing or empty |
| ValidationRoutes.ValidationRoute | src/routes/validation.ts:21-30 | a non-UUID id is rejected; accepted iff the orchestrator completed without throwing; its error passes through; the trail is the orchestrator's |
| ValidationRoutes.ProcessingRoute | src/routes/validation.ts:41-55 | a non-UUID id is rejected; accepted iff the outcome was recorded and any gated publish went through; one release iff recorded |
| ValidationRoutes.EmptyFailureReasonAnnouncesProcessed | src/routes/validation.ts:51-52 | a failed body with an empty reason publishes `media.processed` when the gate admits it |

## Left out

- Collaborators: GCS signing, the session store (Prisma), the quota service and Pub/Sub are replies passed in. Their internal transitions, atomicity and the shape of the rows they return are not modelled; the store's row is taken as given.
- Concurrency: operations are sequential; cross-instance atomicity of quota claims is not modelled.
- Clocks and randomness: `Date.now`, `new Date()` and `randomBytes` are parameters; ISO date formatting is not modelled, so expiry times are millisecond numbers.
- Logging and audit content: only the presence and order of audit effects is kept; log lines and audit payloads are not modelled.
- Regular expressions and URLs: the policy patterns are explicit predicates; `new URL(baseUrl).host` is the `cdnHost` parameter of the internal route.
- Non-ASCII text: `toLowerCase` is modelled for ASCII letters only, and characters outside the Basic Multilingual Plane are not modelled as pairs.
- UUID syntax: a UUID is five hex groups of lengths 8, 4, 4, 4 and 12; the version and variant nibbles that the validator may also check are not modelled.
- Configuration loading (`src/config/index.ts`) is not part of this model; the configuration is the `Manager.Config` value.
- Framework glue: plugin registration, the `verifyServiceRequest` hook and the `/uploads/quota` route are not modelled.
- The admin and internal routes' body checks (`createUploadUrlBodySchema.parse`) are modelled in the handlers' order, after the admin check, as `Schema.WithinSchema`. The framework's own validation, and the status code of a schema failure, are not modelled.
- Manager.HandleValidation: every release is taken to succeed. A release that throws at `src/services/upload-manager.ts:498` would fail the callback after the store write, with no audit and no publication; whether the counter moved when the call threw is not visible, so that path is not modelled.
- Manager.MarkProcessingComplete: every release is taken to succeed, for the same reason. A release that throws at `src/services/upload-manager.ts:596` is not modelled.
- ValidationRoutes.ValidationRoute and ValidationRoutes.ProcessingRoute: the body parse at `src/routes/validation.ts:23` and `:43` is not modelled. A body the callback schema rejects fails the request before the orchestrator runs and with no effect. The routes take a body that has already passed, because those schemas are not part of this model. Their "accepted iff" is therefore stated for parsed bodies only.
- ValidationRoutes.ValidationRoute and ValidationRoutes.ProcessingRoute also inherit the two lines above: their "accepted iff" holds on the assumption that the release does not throw.
- Sessions.GetStatus: the session read is a map lookup, so a store read that throws (`src/services/upload-manager.ts:251`, `:479`, `:568`) is not modelled. The same holds for the callbacks' reads, because the store's failure modes are not visible.
- Manager.ExpireStale: a release that throws part-way through the sweep is not modelled. Every release is taken to succeed, because the quota service's failure modes are not visible.
- Manager.IssueWithKey: a release that throws inside the compensation is not modelled. The original error is taken to be rethrown, for the same reason.
- The bucket handle (`this.storage.bucket`) is not an effect: it makes no remote call, and only whether it throws is modelled, as the `bucket` reply of `Manager.IssueReplies`.
- AdminRoutes.IssueRoute takes the object key as a parameter rather than building it; `Manager.IssueUpload` states how the key is built.
- Manager.IssueUpload states the key, its prefix and its characters, but not the full step; `Manager.IssueWithKey` states that.
