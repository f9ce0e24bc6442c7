/** The upload service: per-type upload limits, upload tokens kept in the
    temporary state store, and single-use token validation. Storing the
    file itself is file-system work and is not part of this model. */
module Upload {
  import opened Common

  datatype UploadType = TeamLogo | PlayerAvatar | MapImage | TournamentBanner

  /** The limits of one upload type; `allowed` holds content types. */
  datatype Config = Config(allowed: seq<string>, maxSize: int, storagePath: string)

  const ImageTypes: seq<string> := ["image/jpeg", "image/png"]

  /** `UploadConfig.CONFIGS`: team logos up to 5 MB, map images up to
      10 MB, avatars up to 2 MB, all JPEG or PNG; tournament banners have
      no entry. */
  function ConfigOf(t: UploadType): (c: Option<Config>)
    ensures c.Some? <==> t != TournamentBanner
    ensures c.Some? ==> c.value.allowed == ImageTypes
  {
    match t
    case TeamLogo => Some(Config(ImageTypes, 5_000_000, "/app/logo_store"))
    case MapImage => Some(Config(ImageTypes, 10_000_000, "/app/map_store"))
    case PlayerAvatar => Some(Config(ImageTypes, 2_000_000, "/app/avatar_store"))
    case TournamentBanner => None
  }

  /** `UploadRequest`. */
  datatype UploadRequest = UploadRequest(filename: string, contentType: string, size: int, uploadType: UploadType)

  /** `UploadToken`: where to send the file, the limits, and the lifetime
      in seconds. */
  datatype UploadToken = UploadToken(uploadUrl: string, token: string, allowed: seq<string>, maxSize: int,
                                     expiresIn: int)

  /** A pending upload in the state store: the request and its metadata. */
  datatype Stored = Stored(request: UploadRequest, metadata: map<string, string>)

  /** `UploadResult`, as `process_upload` records it. */
  datatype UploadResult = UploadResult(filePath: string, originalFilename: string, uploadType: UploadType,
                                       isTemp: bool, fileSize: int)

  datatype UploadError =
    | InvalidUploadType     // "Invalid upload type"
    | InvalidContentType    // "Invalid content type for …"
    | FileTooLarge          // "File too large for …"
    | FinalIdIsDirectory    // "Final ID cannot be a directory"
    | FinalIdCallFails      // calling the `parents` sequence of a path raises
    | InvalidToken          // "Invalid or expired upload token"
    | TypeMismatch          // "File type doesn't match request"

  /** The lifetime of a FILE_UPLOAD entry of the state store: 30 minutes. */
  const UploadLifetime: int := 30 * 60

  const UploadPrefix: string := "/api/v1/uploads/"

  /** `validate_upload_request`: the first failing check, if any. A request
      passes exactly when its type is configured, its content type is one
      the type allows and its size is at most the type's limit (a file of
      exactly the limit passes). */
  function RequestRefusal(req: UploadRequest): (e: Option<UploadError>)
    ensures e.None? <==> ConfigOf(req.uploadType).Some? && req.contentType in ImageTypes
                         && req.size <= ConfigOf(req.uploadType).value.maxSize
    ensures e == Some(InvalidUploadType) <==> req.uploadType == TournamentBanner
    ensures e == Some(InvalidContentType) <==> req.uploadType != TournamentBanner && req.contentType !in ImageTypes
    ensures e == Some(FileTooLarge) <==>
      req.uploadType != TournamentBanner && req.contentType in ImageTypes
      && req.size > ConfigOf(req.uploadType).value.maxSize
  {
    var config := ConfigOf(req.uploadType);
    if config.None? then Some(InvalidUploadType)
    else if req.contentType !in config.value.allowed then Some(InvalidContentType)
    else if req.size > config.value.maxSize then Some(FileTooLarge)
    else None
  }

  /** The limits are ordered: whatever fits an avatar fits a logo, and
      whatever fits a logo fits a map image. */
  lemma LimitsNested(req: UploadRequest)
    requires req.uploadType == PlayerAvatar && RequestRefusal(req).None?
    ensures RequestRefusal(req.(uploadType := TeamLogo)).None?
    ensures RequestRefusal(req.(uploadType := MapImage)).None?
  {
  }

  /** The metadata stored with a pending upload. */
  function UploadMetadata(req: UploadRequest, player: Id, createdAt: string): map<string, string>
  {
    map["player_id" := IdText(player), "original_filename" := req.filename, "created_at" := createdAt]
  }

  // ---------------------------------------------------------------- final ids

  /** The final id has a directory part. */
  predicate HasDirectoryPart(finalId: string)
  {
    exists i :: 0 <= i < |finalId| && finalId[i] == '/'
  }

  /** The final-id check as written: any non-empty final id reaches the
      call of the path's `parents` sequence, which is not callable, so the
      upload fails before the token is looked at. */
  function FinalIdRefusalAsWritten(finalId: Option<string>): (e: Option<UploadError>)
    ensures e.None? <==> finalId.None? || finalId.value == ""
  {
    if finalId.Some? && finalId.value != "" then Some(FinalIdCallFails) else None
  }

  /** The final-id check as its comment intends, which is that the final id
      be no directory: a final id naming a directory path is
      refused, a plain name passes. Dropping the call parentheses alone
      would not give this rule: the `parents` of a relative path such as
      "logo" holds ".", so every non-empty final id would still be
      refused. */
  function FinalIdRefusal(finalId: Option<string>): (e: Option<UploadError>)
    ensures e.None? <==> finalId.None? || !HasDirectoryPart(finalId.value)
    ensures e.Some? ==> e.value == FinalIdIsDirectory
  {
    if finalId.Some? && HasDirectoryPart(finalId.value) then Some(FinalIdIsDirectory) else None
  }

  /** A plain final id such as "logo": as written the upload fails, as
      intended it passes the check. */
  lemma FinalIdCounterexample()
    ensures FinalIdRefusalAsWritten(Some("logo")) == Some(FinalIdCallFails)
    ensures FinalIdRefusal(Some("logo")) == None
    ensures FinalIdRefusal(Some("teams/logo")) == Some(FinalIdIsDirectory)
  {
    assert "teams/logo"[5] == '/';
  }

  // ---------------------------------------------------------------- moves

  /** `move_upload_if_temp` on a stored upload: the path stays as it is
      exactly when the upload is not temporary. */
  function KeptPath(result: UploadResult): (p: Option<string>)
    ensures p.Some? <==> !result.isTemp
    ensures p.Some? ==> p.value == result.filePath
  {
    if result.isTemp then None else Some(result.filePath)
  }

  // ---------------------------------------------------------------- the service

  /** `UploadService` with the FILE_UPLOAD entries of the state store,
      keyed by state id. */
  class UploadService {
    var pending: map<string, Stored>

    constructor ()
      ensures pending == map[]
    {
      pending := map[];
    }

    /** `create_upload_token`: a refused request stores nothing; otherwise
        the request is stored under the new state id `stateId` and the token
        names that id, the type's limits and the 30-minute lifetime. */
    method CreateUploadToken(stateId: string, req: UploadRequest, player: Id, createdAt: string)
      returns (r: Result<UploadToken, UploadError>)
      modifies this`pending
      ensures RequestRefusal(req).Some? ==> r == Err(RequestRefusal(req).value) && pending == old(pending)
      ensures RequestRefusal(req).None? ==>
        && r.Ok?
        && r.value.uploadUrl == UploadPrefix + stateId && r.value.token == stateId
        && r.value.allowed == ImageTypes && r.value.maxSize == ConfigOf(req.uploadType).value.maxSize
        && r.value.expiresIn == UploadLifetime
        && pending == old(pending)[stateId := Stored(req, UploadMetadata(req, player, createdAt))]
    {
      var refusal := RequestRefusal(req);
      if refusal.Some? {
        return Err(refusal.value);
      }
      var config := ConfigOf(req.uploadType).value;
      pending := pending[stateId := Stored(req, UploadMetadata(req, player, createdAt))];
      r := Ok(UploadToken(UploadPrefix + stateId, stateId, config.allowed, config.maxSize, UploadLifetime));
    }

    /** `validate_upload_token`: after the final-id check, the pending
        upload is taken out of the store whether or not the file matches,
        so a token validates at most once; an unknown token, and a file
        whose content type differs from the request's, are refused. */
    method ValidateUploadToken(token: string, contentType: Option<string>, finalId: Option<string>)
      returns (r: Result<Stored, UploadError>)
      modifies this`pending
      ensures FinalIdRefusal(finalId).Some? ==> r == Err(FinalIdIsDirectory) && pending == old(pending)
      ensures FinalIdRefusal(finalId).None? ==>
        && pending == old(pending) - {token}
        && (token !in old(pending) ==> r == Err(InvalidToken))
        && (token in old(pending) && contentType != Some(old(pending)[token].request.contentType) ==>
              r == Err(TypeMismatch))
        && (token in old(pending) && contentType == Some(old(pending)[token].request.contentType) ==>
              r == Ok(old(pending)[token]))
      ensures r.Ok? ==> token !in pending
    {
      var refusal := FinalIdRefusal(finalId);
      if refusal.Some? {
        return Err(refusal.value);
      }
      if token !in pending {
        return Err(InvalidToken);
      }
      var stored := pending[token];
      pending := pending - {token};
      if contentType != Some(stored.request.contentType) {
        return Err(TypeMismatch);
      }
      r := Ok(stored);
    }
  }
}
