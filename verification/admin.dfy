/** The admin routes: caller identification from the two admin headers, the
    translation of issuance failures into HTTP answers, and the status
    route's not-found answer. */
module AdminRoutes {
  import opened Wrappers
  import opened Strings
  import opened Errors
  import opened Sessions
  import opened Ledger
  import opened Schema
  import opened Policy
  import opened Manager
  import opened Routes

  /** A request header: absent, sent once, or repeated (an array). */
  datatype Header = Absent | Single(value: string) | Repeated(values: seq<string>)

  /** A repeated header counts by its first value; an empty array gives
      nothing. */
  function FirstValue(h: Header): (v: Option<string>)
    ensures h.Single? ==> v == Some(h.value)
    ensures h.Repeated? ==> (v.Some? <==> |h.values| > 0) && (v.Some? ==> v.value == h.values[0])
    ensures h.Absent? ==> v.None?
  {
    match h
    case Absent => None
    case Single(s) => Some(s)
    case Repeated(vs) => if |vs| == 0 then None else Some(vs[0])
  }

  /** Each comma-separated piece trimmed and lower-cased, empty pieces
      dropped, order kept. */
  function NormaliseRoles(pieces: seq<string>): (roles: seq<string>)
    ensures |roles| <= |pieces|
    ensures forall i :: 0 <= i < |roles| ==> |roles[i]| > 0
  {
    if |pieces| == 0 then []
    else
      var role := ToLower(Trim(pieces[0]));
      (if |role| > 0 then [role] else []) + NormaliseRoles(pieces[1..])
  }

  /** A role is listed exactly when some piece normalises to it. */
  lemma {:induction false} NormaliseRolesMembers(pieces: seq<string>, x: string)
    ensures x in NormaliseRoles(pieces) <==> |x| > 0 && exists i :: 0 <= i < |pieces| && ToLower(Trim(pieces[i])) == x
    decreases |pieces|
  {
    if |pieces| > 0 {
      NormaliseRolesMembers(pieces[1..], x);
      var role := ToLower(Trim(pieces[0]));
      assert NormaliseRoles(pieces) == (if |role| > 0 then [role] else []) + NormaliseRoles(pieces[1..]);
      if exists i :: 0 <= i < |pieces| && ToLower(Trim(pieces[i])) == x {
        var i :| 0 <= i < |pieces| && ToLower(Trim(pieces[i])) == x;
        if i > 0 {
          assert ToLower(Trim(pieces[1..][i - 1])) == x;
        }
      }
      if exists j :: 0 <= j < |pieces[1..]| && ToLower(Trim(pieces[1..][j])) == x {
        var j :| 0 <= j < |pieces[1..]| && ToLower(Trim(pieces[1..][j])) == x;
        assert ToLower(Trim(pieces[j + 1])) == x;
      }
    }
  }

  /** The roles the roles header grants. */
  function Roles(rolesHeader: Header): seq<string> {
    match FirstValue(rolesHeader)
    case None => []
    case Some(s) => NormaliseRoles(Split(s, ','))
  }

  /** The admin role is held exactly when some comma-separated entry of the
      first header value is `admin` once trimmed and lower-cased. */
  lemma AdminRoleIffEntry(rolesHeader: Header)
    ensures "admin" in Roles(rolesHeader) <==>
      FirstValue(rolesHeader).Some? &&
      exists i :: 0 <= i < |Split(FirstValue(rolesHeader).value, ',')| &&
        ToLower(Trim(Split(FirstValue(rolesHeader).value, ',')[i])) == "admin"
  {
    if FirstValue(rolesHeader).Some? {
      var v := FirstValue(rolesHeader).value;
      assert Roles(rolesHeader) == NormaliseRoles(Split(v, ','));
      NormaliseRolesMembers(Split(v, ','), "admin");
    }
  }

  const Unauthorized: RouteError := Http(401, "Missing admin identity")
  const Forbidden: RouteError := Http(403, "Admin role required")
  const IssueFailed: RouteError := Http(500, "Failed to issue upload URL")
  const UploadNotFound: RouteError := Http(404, "Upload not found")

  datatype AdminContext = AdminContext(adminId: AdminId, roles: seq<string>)

  /** An empty identity counts as missing. */
  predicate IdentityMissing(idHeader: Header) {
    FirstValue(idHeader).None? || FirstValue(idHeader).value == ""
  }

  /** `ensureAdmin`: a missing identity is a 401 whatever the roles; an
      identified caller without the exact role `admin` is a 403. */
  function EnsureAdmin(idHeader: Header, rolesHeader: Header): (r: Result<AdminContext, RouteError>)
    ensures r == Failure(Unauthorized) <==> IdentityMissing(idHeader)
    ensures r == Failure(Forbidden) <==> !IdentityMissing(idHeader) && "admin" !in Roles(rolesHeader)
    ensures r.Success? <==> !IdentityMissing(idHeader) && "admin" in Roles(rolesHeader)
    ensures r.Success? ==> r.value.adminId == FirstValue(idHeader).value && r.value.adminId != ""
    ensures r.Success? ==> r.value.roles == Roles(rolesHeader)
  {
    var roles := Roles(rolesHeader);
    if IdentityMissing(idHeader) then Failure(Unauthorized)
    else if "admin" !in roles then Failure(Forbidden)
    else Success(AdminContext(FirstValue(idHeader).value, roles))
  }

  /** A repeated header is judged by its first value alone. */
  lemma RepeatedHeadersUseFirst(id: string, ids: seq<string>, roles: string, moreRoles: seq<string>)
    ensures EnsureAdmin(Repeated([id] + ids), Repeated([roles] + moreRoles)) == EnsureAdmin(Single(id), Single(roles))
  {
  }

  /** Padding, case and an empty trailing entry do not matter:
      `" Admin ,"` grants the role. */
  lemma PaddedAdminRoleGrants(id: string)
    requires id != ""
    ensures EnsureAdmin(Single(id), Single(" Admin ,")) == Success(AdminContext(id, ["admin"]))
  {
    RolesOfPaddedAdmin();
  }

  lemma RolesOfPaddedAdmin()
    ensures Roles(Single(" Admin ,")) == ["admin"]
  {
    SplitOfPaddedAdmin();
    TrimOfPaddedAdmin();
    AdminLowered();
    assert Trim("") == "";
    NormaliseOne("");
    NormaliseTwo(" Admin ", "");
  }

  lemma AdminLowered()
    ensures ToLower("Admin") == "admin"
  {
    var r := ToLower("Admin");
    assert r[0] == 'a' && r[1] == 'd' && r[2] == 'm' && r[3] == 'i' && r[4] == 'n';
  }

  lemma SuperadminLowered()
    ensures ToLower("superadmin") == "superadmin"
  {
    var r := ToLower("superadmin");
    assert r[0] == 's' && r[1] == 'u' && r[2] == 'p' && r[3] == 'e' && r[4] == 'r';
    assert r[5] == 'a' && r[6] == 'd' && r[7] == 'm' && r[8] == 'i' && r[9] == 'n';
  }

  lemma SplitOfPaddedAdmin()
    ensures Split(" Admin ,", ',') == [" Admin ", ""]
  {
    SplitFirstOfJoin(" Admin ", "", ',');
    assert " Admin " + [','] + "" == " Admin ,";
    assert Split("", ',') == [""];
  }

  lemma TrimOfPaddedAdmin()
    ensures Trim(" Admin ") == "Admin"
  {
    assert " Admin " == [' '] + "Admin" + [' '];
    TrimOfPadded("Admin");
  }

  /** The role must be exactly `admin`: `superadmin` is refused. */
  lemma SuperadminIsForbidden(id: string)
    requires id != ""
    ensures EnsureAdmin(Single(id), Single("superadmin")) == Failure(Forbidden)
  {
    RolesOfSuperadmin();
  }

  lemma RolesOfSuperadmin()
    ensures Roles(Single("superadmin")) == ["superadmin"]
  {
    var s := "superadmin";
    assert s[0] == 's' && s[9] == 'n';
    assert ',' !in s;
    SuperadminLowered();
    PlainRole(s);
  }

  /** A single entry without padding, capitals or commas is the only role. */
  lemma PlainRole(s: string)
    requires |s| > 0 && !IsWhitespace(s[0]) && !IsWhitespace(s[|s| - 1]) && ',' !in s && ToLower(s) == s
    ensures Roles(Single(s)) == [s]
  {
    assert Split(s, ',') == [s];
    TrimOfTrimmed(s);
    NormaliseOne(s);
  }

  lemma NormaliseTwo(first: string, second: string)
    ensures NormaliseRoles([first, second]) ==
      (if |ToLower(Trim(first))| > 0 then [ToLower(Trim(first))] else []) + NormaliseRoles([second])
  {
    assert [first, second][1..] == [second];
  }

  lemma NormaliseOne(piece: string)
    ensures NormaliseRoles([piece]) == if |ToLower(Trim(piece))| > 0 then [ToLower(Trim(piece))] else []
  {
    assert [piece][1..] == [];
  }

  /** How an issuance failure reaches the client: an `Error` carrying a
      non-zero `statusCode` goes through unchanged, anything else becomes a
      500. */
  function IssueErrorOf(f: Failure): (e: RouteError)
    ensures e.Passed? <==> IsErrorInstance(f) && StatusCode(f).Some? && StatusCode(f).value != 0
    ensures e.Passed? ==> e.failure == f && HttpStatus(e) == StatusCode(f)
    ensures !e.Passed? ==> e == IssueFailed && HttpStatus(e) == Some(500)
  {
    if IsErrorInstance(f) && StatusCode(f).Some? && StatusCode(f).value != 0 then Passed(f) else IssueFailed
  }

  /** The orchestrator's own rejections keep their codes (415, 413, 429,
      404); a collaborator error with `statusCode` 0, or one that is not an
      `Error`, is a 500. */
  lemma IssueErrorStatuses(f: Failure)
    ensures !f.Rethrown? ==> IssueErrorOf(f) == Passed(f) && HttpStatus(IssueErrorOf(f)) in {Some(415), Some(413), Some(429), Some(404)}
    ensures f.Rethrown? && (f.thrown.statusCode == Some(0) || !f.thrown.isError) ==> IssueErrorOf(f) == IssueFailed
  {
  }

  /** The caller the request authenticates as, when it does. */
  predicate Authorised(idHeader: Header, rolesHeader: Header) {
    EnsureAdmin(idHeader, rolesHeader).Success?
  }

  /** `POST /uploads/sign`: identify the caller, check the body against the
      request schema, then issue for that caller; issuance failures are
      translated by `IssueErrorOf`.  `objectKey` stands for the key the
      orchestrator builds for the request (`Manager.IssueUpload`). */
  function IssueRoute(cfg: Config, idHeader: Header, rolesHeader: Header, body: UploadBody, nowMs: nat, objectKey: string,
                      r: IssueReplies): (h: Handled<IssueResponse>)
    ensures !Authorised(idHeader, rolesHeader) ==> h == Handled([], map[], Failure(EnsureAdmin(idHeader, rolesHeader).error))
    ensures Authorised(idHeader, rolesHeader) && !WithinSchema(body) ==> h == Handled([], map[], Failure(InvalidInput))
    ensures Authorised(idHeader, rolesHeader) && WithinSchema(body) && !Admitted(body) ==>
      h.effects == [] && h.result == Failure(Passed(ValidateContent(body.assetType, body.contentType, body.sizeBytes).error))
    ensures Authorised(idHeader, rolesHeader) && WithinSchema(body) && Admitted(body) && r.claim.Refused? ==>
      h.effects == [] && h.result == Failure(IssueErrorOf(ClassifyClaimError(r.claim.error)))
    ensures h.result.Success? <==>
      Authorised(idHeader, rolesHeader) && WithinSchema(body) && Admitted(body) && r.claim.Granted? && IssueError(r).None?
    ensures Authorised(idHeader, rolesHeader) && WithinSchema(body) && Admitted(body) && r.claim.Granted? && h.result.Failure? ==>
      h.result.error == IssueErrorOf(Rethrown(IssueError(r).value))
    ensures QuotaTrail(h.effects) ==
      if Authorised(idHeader, rolesHeader) && WithinSchema(body) && Admitted(body) && r.claim.Granted?
      then ClaimTrail(FirstValue(idHeader).value, Compensated(r))
      else []
  {
    match EnsureAdmin(idHeader, rolesHeader)
    case Failure(e) => Handled([], map[], Failure(e))
    case Success(ctx) =>
      if !WithinSchema(body) then Handled([], map[], Failure(InvalidInput))
      else
        var s := IssueWithKey(cfg, body, ctx.adminId, nowMs, objectKey, r);
        Handled(s.effects, s.writes, match s.result case Success(v) => Success(v) case Failure(f) => Failure(IssueErrorOf(f)))
  }

  /** Only the authenticated caller's counter moves: by one on success and
      when the bucket handle throws after the claim, not at all otherwise. */
  lemma IssueRouteNetQuota(cfg: Config, idHeader: Header, rolesHeader: Header, body: UploadBody, nowMs: nat, objectKey: string,
                           r: IssueReplies, a: AdminId)
    ensures var h := IssueRoute(cfg, idHeader, rolesHeader, body, nowMs, objectKey, r);
      Net(QuotaTrail(h.effects), a) ==
        if Authorised(idHeader, rolesHeader) && WithinSchema(body) && ClaimHeld(body, r) && a == FirstValue(idHeader).value
        then 1 else 0
  {
    var h := IssueRoute(cfg, idHeader, rolesHeader, body, nowMs, objectKey, r);
    if QuotaTrail(h.effects) != [] {
      ClaimTrailNet(FirstValue(idHeader).value, Compensated(r), a);
    }
  }

  /** `GET /uploads/:uploadId/status`: identify the caller, check the id,
      then look the upload up for that caller; nothing found is a 404. */
  function StatusRoute(sessions: map<UploadId, Session>, idHeader: Header, rolesHeader: Header, uploadId: string)
    : (r: Result<StatusView, RouteError>)
    ensures EnsureAdmin(idHeader, rolesHeader).Failure? ==> r == Failure(EnsureAdmin(idHeader, rolesHeader).error)
    ensures EnsureAdmin(idHeader, rolesHeader).Success? && !IsUuid(uploadId) ==> r == Failure(InvalidInput)
    ensures r.Success? <==>
      && EnsureAdmin(idHeader, rolesHeader).Success? && IsUuid(uploadId)
      && uploadId in sessions && sessions[uploadId].adminId == FirstValue(idHeader).value
    ensures r.Success? ==> r.value == Project(sessions[uploadId])
    ensures EnsureAdmin(idHeader, rolesHeader).Success? && IsUuid(uploadId) && r.Failure? ==> r.error == UploadNotFound
  {
    match EnsureAdmin(idHeader, rolesHeader)
    case Failure(e) => Failure(e)
    case Success(ctx) =>
      if !IsUuid(uploadId) then Failure(InvalidInput)
      else
        match GetStatus(sessions, uploadId, Some(ctx.adminId))
        case None => Failure(UploadNotFound)
        case Some(view) => Success(view)
  }

  /** A caller who does not own an existing upload gets exactly the answer
      they would get if it did not exist. */
  lemma StatusHidesOthersUploads(sessions: map<UploadId, Session>, idHeader: Header, rolesHeader: Header, uploadId: string)
    requires uploadId in sessions && FirstValue(idHeader) != Some(sessions[uploadId].adminId)
    ensures StatusRoute(sessions, idHeader, rolesHeader, uploadId) == StatusRoute(sessions - {uploadId}, idHeader, rolesHeader, uploadId)
  {
  }
}
