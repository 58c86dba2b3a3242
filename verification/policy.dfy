/** Asset policies: which content types and sizes each asset type admits,
    and the storage prefix its objects live under. */
module Policy {
  import opened Wrappers
  import opened Errors

  datatype AssetType = Video | Thumbnail | Banner

  /** The asset type as the request spells it. */
  function AssetTypeName(t: AssetType): string {
    match t
    case Video => "video"
    case Thumbnail => "thumbnail"
    case Banner => "banner"
  }

  const MiB: nat := 1024 * 1024

  datatype AssetPolicy = AssetPolicy(prefix: string, maxSizeBytes: nat)

  /** The fixed policy table. */
  function PolicyFor(t: AssetType): (p: AssetPolicy)
    ensures '/' !in p.prefix && |p.prefix| > 0
  {
    match t
    case Video => AssetPolicy("videos", 512 * MiB)
    case Thumbnail => AssetPolicy("thumbnails", 25 * MiB)
    case Banner => AssetPolicy("banners", 25 * MiB)
  }

  /** `^video\/`: any content type that starts with `video/`. */
  predicate IsVideoType(contentType: string) {
    |contentType| >= 6 && contentType[..6] == "video/"
  }

  /** `^image\/(jpeg|png|webp)$`: exactly one of three image types. */
  predicate IsStillImageType(contentType: string) {
    contentType == "image/jpeg" || contentType == "image/png" || contentType == "image/webp"
  }

  predicate ContentTypeAllowed(t: AssetType, contentType: string) {
    match t
    case Video => IsVideoType(contentType)
    case Thumbnail => IsStillImageType(contentType)
    case Banner => IsStillImageType(contentType)
  }

  /** Admission of a declared upload.  The content type is judged first, so
      an unsupported type is a 415 whatever the size; the size is a 413 only
      when it strictly exceeds the ceiling. */
  function ValidateContent(t: AssetType, contentType: string, sizeBytes: int): (r: Result<AssetPolicy, Failure>)
    ensures r.Success? <==> ContentTypeAllowed(t, contentType) && sizeBytes <= PolicyFor(t).maxSizeBytes
    ensures r.Success? ==> r.value == PolicyFor(t)
    ensures r == Failure(UnsupportedContentType) <==> !ContentTypeAllowed(t, contentType)
    ensures r == Failure(PayloadTooLarge) <==> ContentTypeAllowed(t, contentType) && sizeBytes > PolicyFor(t).maxSizeBytes
    ensures r.Failure? ==> StatusCode(r.error) == Some(if r.error.UnsupportedContentType? then 415 else 413)
  {
    var policy := PolicyFor(t);
    if !ContentTypeAllowed(t, contentType) then Failure(UnsupportedContentType)
    else if sizeBytes > policy.maxSizeBytes then Failure(PayloadTooLarge)
    else Success(policy)
  }

  /** The ceilings are inclusive: exactly the ceiling is admitted, one byte
      more is not. */
  lemma CeilingIsInclusive(t: AssetType, contentType: string)
    requires ContentTypeAllowed(t, contentType)
    ensures ValidateContent(t, contentType, PolicyFor(t).maxSizeBytes).Success?
    ensures ValidateContent(t, contentType, PolicyFor(t).maxSizeBytes + 1) == Failure(PayloadTooLarge)
    ensures PolicyFor(t).maxSizeBytes == if t == Video then 536870912 else 26214400
  {
  }

  /** A 600 MB video is rejected as too large; a 10 MB PNG thumbnail is
      admitted; a PNG declared as a video is unsupported even when huge. */
  lemma AdmissionExamples()
    ensures ValidateContent(Video, "video/mp4", 600 * 1000 * 1000) == Failure(PayloadTooLarge)
    ensures ValidateContent(Thumbnail, "image/png", 10 * 1000 * 1000) == Success(AssetPolicy("thumbnails", 25 * MiB))
    ensures ValidateContent(Video, "image/png", 600 * 1000 * 1000) == Failure(UnsupportedContentType)
    ensures ValidateContent(Banner, "image/gif", 1) == Failure(UnsupportedContentType)
  {
    assert "video/mp4"[..6] == "video/";
    assert "image/png"[..6] != "video/" by { assert "image/png"[0] == 'i'; }
  }
}
