/** The request body of an upload-credential request and the response
    shape, with the bounds the request schema enforces. */
module Schema {
  import opened Wrappers
  import opened Errors
  import opened Policy

  /** A credential request.  The schema declares the first three fields;
      the orchestrator also reads an asset type and an optional content
      reference, which are carried here as inputs of their own. */
  datatype UploadBody = UploadBody(
    fileName: string,
    contentType: string,
    sizeBytes: int,
    assetType: AssetType,
    contentId: Option<string>)

  const MaxDeclaredSize: nat := 512 * 1024 * 1024

  /** `fileName` 1..255 characters, `contentType` 3..128 characters,
      `sizeBytes` a positive integer of at most 512 MiB. */
  predicate WithinSchema(body: UploadBody) {
    && 1 <= |body.fileName| <= 255
    && 3 <= |body.contentType| <= 128
    && 0 < body.sizeBytes <= MaxDeclaredSize
  }

  /** The response: the upload URL, its expiry, the optional form fields
      and the optional CDN location. */
  datatype UploadUrlResponse = UploadUrlResponse(
    uploadUrl: string,
    expiresAt: int,
    fields: Option<map<string, string>>,
    cdn: Option<string>)

  /** The schema's size bound is exactly the video ceiling, so a
      schema-valid video with an allowed type is always admitted. */
  lemma SchemaValidVideoFitsCeiling(body: UploadBody)
    requires WithinSchema(body) && body.assetType == Video && IsVideoType(body.contentType)
    ensures MaxDeclaredSize == PolicyFor(Video).maxSizeBytes
    ensures ValidateContent(Video, body.contentType, body.sizeBytes) == Success(PolicyFor(Video))
  {
  }

  /** Images are different: a schema-valid thumbnail or banner can still be
      refused as too large, and is refused exactly when it exceeds 25 MiB. */
  lemma SchemaValidImageMayExceedCeiling(body: UploadBody)
    requires WithinSchema(body) && body.assetType != Video && IsStillImageType(body.contentType)
    ensures ValidateContent(body.assetType, body.contentType, body.sizeBytes) == Failure(PayloadTooLarge)
        <==> body.sizeBytes > 25 * MiB
    ensures WithinSchema(body.(sizeBytes := 25 * MiB + 1))
  {
  }
}
