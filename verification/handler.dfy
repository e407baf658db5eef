/** The upload handler: the guard chain (authentication, video id, lookup,
    ownership, payload checks) followed by staging, upload, metadata update
    and removal of the staged file, as one pure function of the request and
    the world. */
module Handler {
  import opened Wrappers
  import opened UploadTypes
  import opened Naming
  import opened Collaborators

  /** Extracts and verifies the bearer credential. */
  function Authenticate(cfg: Config, verify: Verifier, bearer: Option<string>): (r: Result<Identity, Error>)
    ensures r.Success? <==> bearer.Some? && verify(bearer.value, cfg.jwtSecret).Some?
    ensures r.Success? ==> r.value == verify(bearer.value, cfg.jwtSecret).value
    ensures r.Failure? ==> r.error == Unauthenticated
  {
    match bearer
    case None => Failure(Unauthenticated)
    case Some(token) =>
      match verify(token, cfg.jwtSecret)
      case None => Failure(Unauthenticated)
      case Some(user) => Success(user)
  }

  /** The `videoId` path parameter must be truthy: both a missing parameter
      and the empty string are rejected. */
  function RequireVideoId(videoId: Option<string>): (r: Result<string, Error>)
    ensures r.Success? <==> videoId.Some? && |videoId.value| > 0
    ensures r.Success? ==> r.value == videoId.value
    ensures r.Failure? ==> r.error == BadRequest(InvalidVideoId)
  {
    if videoId.None? || videoId.value == "" then Failure(BadRequest(InvalidVideoId))
    else Success(videoId.value)
  }

  /** Loads the video and checks that the caller owns it. */
  function Authorize(videos: map<string, VideoRecord>, videoId: string, user: Identity): (r: Result<VideoRecord, Error>)
    ensures r == Failure(NotFound) <==> videoId !in videos
    ensures r == Failure(Forbidden) <==> videoId in videos && videos[videoId].userID != user
    ensures r.Success? <==> videoId in videos && videos[videoId].userID == user
    ensures r.Success? ==> r.value == videos[videoId]
  {
    match GetVideo(videos, videoId)
    case None => Failure(NotFound)
    case Some(video) =>
      if video.userID != user then Failure(Forbidden) else Success(video)
  }

  /** Checks the "video" form field: present, at most 1 GiB, exactly "video/mp4". */
  function ValidatePart(part: Option<FilePart>): (r: Result<FilePart, Error>)
    ensures r == Failure(BadRequest(VideoFileMissing)) <==> part.None?
    ensures r == Failure(BadRequest(FileTooLarge)) <==> part.Some? && part.value.size > MaxUploadSize
    ensures r == Failure(BadRequest(UnsupportedType)) <==>
      part.Some? && part.value.size <= MaxUploadSize && part.value.mimeType != "video/mp4"
    ensures r.Success? <==>
      part.Some? && part.value.size <= MaxUploadSize && part.value.mimeType == "video/mp4"
    ensures r.Success? ==> r.value == part.value
  {
    match part
    case None => Failure(BadRequest(VideoFileMissing))
    case Some(file) =>
      if file.size > MaxUploadSize then Failure(BadRequest(FileTooLarge))
      else if file.mimeType != Mp4Type then Failure(BadRequest(UnsupportedType))
      else Success(file)
  }

  /** What a request that passed every guard carries into the effectful part. */
  datatype Admitted = Admitted(videoId: string, video: VideoRecord, file: FilePart)

  /** The guard chain, in the handler's order; the first failing guard decides the error. */
  function Guards(cfg: Config, verify: Verifier, req: Request, videos: map<string, VideoRecord>): (r: Result<Admitted, Error>)
    ensures r.Failure? ==> r.error.IsRejection()
    ensures r.Success? ==>
      && req.bearer.Some? && verify(req.bearer.value, cfg.jwtSecret).Some?
      && req.videoId.Some? && r.value.videoId == req.videoId.value && |r.value.videoId| > 0
      && r.value.videoId in videos && r.value.video == videos[r.value.videoId]
      && r.value.video.userID == verify(req.bearer.value, cfg.jwtSecret).value
      && req.videoPart == Some(r.value.file)
      && r.value.file.size <= MaxUploadSize && r.value.file.mimeType == "video/mp4"
  {
    var user :- Authenticate(cfg, verify, req.bearer);
    var videoId :- RequireVideoId(req.videoId);
    var video :- Authorize(videos, videoId, user);
    var file :- ValidatePart(req.videoPart);
    Success(Admitted(videoId, video, file))
  }

  /** Stages the file, uploads it, records its URL and removes the staged
      file. There is no cleanup on failure: once the file is staged, a
      failing upload or update leaves it on disk. */
  function Publish(cfg: Config, a: Admitted, w: World, io: Io): (r: Response)
    ensures r.result.Success? <==> io.writeOk && io.putOk && io.updateOk
    ensures r.result.Failure? ==> !r.result.error.IsRejection()
    ensures r.world.videos != w.videos ==> r.result.Success?
    ensures r.world.objects != w.objects ==> io.writeOk && io.putOk
    ensures r.result.Success? ==>
      && r.result.value == a.video.(videoURL := Some(PublicUrl(cfg, StorageKey(a.videoId))))
      && TempPath(StorageKey(a.videoId)) !in r.world.tempFiles
      && StorageKey(a.videoId) in r.world.objects
      && r.world.objects[StorageKey(a.videoId)] == a.file.mimeType
    ensures r.result.Success? ==>
      && r.world.videos == UpdateVideo(w.videos, r.result.value)
      && r.world.objects == PutObject(w.objects, StorageKey(a.videoId), a.file.mimeType)
      && r.world.tempFiles == RemoveFile(w.tempFiles, TempPath(StorageKey(a.videoId)))
    ensures !io.writeOk ==> r == Response(Failure(WriteFailed), w)
    ensures io.writeOk && !io.putOk ==>
      r == Response(Failure(UploadFailed), w.(tempFiles := WriteFile(w.tempFiles, TempPath(StorageKey(a.videoId)))))
    ensures io.writeOk && io.putOk && !io.updateOk ==>
      r == Response(Failure(UpdateFailed),
                    w.(tempFiles := WriteFile(w.tempFiles, TempPath(StorageKey(a.videoId))),
                       objects := PutObject(w.objects, StorageKey(a.videoId), a.file.mimeType)))
  {
    var key := StorageKey(a.videoId);
    var tempFilePath := TempPath(key);
    if !io.writeOk then Response(Failure(WriteFailed), w)
    else
      var staged := w.(tempFiles := WriteFile(w.tempFiles, tempFilePath));
      if !io.putOk then Response(Failure(UploadFailed), staged)
      else
        var uploaded := staged.(objects := PutObject(staged.objects, key, a.file.mimeType));
        var video := a.video.(videoURL := Some(PublicUrl(cfg, key)));
        if !io.updateOk then Response(Failure(UpdateFailed), uploaded)
        else
          var updated := uploaded.(videos := UpdateVideo(uploaded.videos, video));
          Response(Success(video), updated.(tempFiles := RemoveFile(updated.tempFiles, tempFilePath)))
  }

  /** The whole handler. A guard failure leaves the world exactly as it was. */
  function HandleUploadVideo(cfg: Config, verify: Verifier, req: Request, w: World, io: Io): (r: Response)
    ensures r.result.Failure? && r.result.error.IsRejection() ==> r.world == w
    ensures r.world.tempFiles != w.tempFiles ==> io.writeOk
    ensures r.result.Success? ==>
      && req.videoId.Some? && req.videoId.value in w.videos
      && req.bearer.Some? && verify(req.bearer.value, cfg.jwtSecret) == Some(w.videos[req.videoId.value].userID)
      && r.result.value ==
           w.videos[req.videoId.value].(videoURL := Some(PublicUrl(cfg, StorageKey(req.videoId.value))))
  {
    match Guards(cfg, verify, req, w.videos)
    case Failure(e) => Response(Failure(e), w)
    case Success(a) => Publish(cfg, a, w, io)
  }
}
