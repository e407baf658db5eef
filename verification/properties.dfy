/** Properties of the upload handler over all requests, worlds and I/O
    outcomes: the guard order, the effects of each exit path, the derived
    names, idempotence and the invariants a run preserves. */
module Properties {
  import opened Wrappers
  import opened UploadTypes
  import opened Naming
  import opened Collaborators
  import opened Handler

  /** The bearer token is present and verifies against the configured secret. */
  ghost predicate Authenticated(cfg: Config, verify: Verifier, req: Request) {
    req.bearer.Some? && verify(req.bearer.value, cfg.jwtSecret).Some?
  }

  /** The caller proved by the token, when it verifies. */
  ghost function Caller(cfg: Config, verify: Verifier, req: Request): Identity
    requires Authenticated(cfg, verify, req)
  {
    verify(req.bearer.value, cfg.jwtSecret).value
  }

  /** The path parameter is present and non-empty. */
  ghost predicate HasVideoId(req: Request) {
    req.videoId.Some? && req.videoId.value != ""
  }

  /** The caller is authenticated, names a video that exists and owns it. */
  ghost predicate Owner(cfg: Config, verify: Verifier, req: Request, w: World) {
    && Authenticated(cfg, verify, req)
    && HasVideoId(req)
    && req.videoId.value in w.videos
    && w.videos[req.videoId.value].userID == Caller(cfg, verify, req)
  }

  /** Every I/O step succeeds. */
  predicate AllOk(io: Io) {
    io.writeOk && io.putOk && io.updateOk
  }

  /** Guard order: each rejection happens exactly when every earlier guard
      passed and its own guard fails, so the first failing guard decides the
      error; and no rejection changes the world. */
  lemma GuardOrder(cfg: Config, verify: Verifier, req: Request, w: World, io: Io)
    ensures var r := HandleUploadVideo(cfg, verify, req, w, io);
      && (r.result == Failure(Unauthenticated) <==> !Authenticated(cfg, verify, req))
      && (r.result == Failure(BadRequest(InvalidVideoId)) <==>
            Authenticated(cfg, verify, req) && !HasVideoId(req))
      && (r.result == Failure(NotFound) <==>
            Authenticated(cfg, verify, req) && HasVideoId(req) && req.videoId.value !in w.videos)
      && (r.result == Failure(Forbidden) <==>
            && Authenticated(cfg, verify, req) && HasVideoId(req) && req.videoId.value in w.videos
            && w.videos[req.videoId.value].userID != Caller(cfg, verify, req))
      && (r.result == Failure(BadRequest(VideoFileMissing)) <==>
            Owner(cfg, verify, req, w) && req.videoPart.None?)
      && (r.result == Failure(BadRequest(FileTooLarge)) <==>
            Owner(cfg, verify, req, w) && req.videoPart.Some? && req.videoPart.value.size > MaxUploadSize)
      && (r.result == Failure(BadRequest(UnsupportedType)) <==>
            && Owner(cfg, verify, req, w) && req.videoPart.Some?
            && req.videoPart.value.size <= MaxUploadSize && req.videoPart.value.mimeType != "video/mp4")
      && (r.result.Failure? && r.result.error.IsRejection() ==> r.world == w)
  {
  }

  /** A caller who does not own the video gets Forbidden whatever the payload
      and the I/O outcomes, and nothing is staged, uploaded or updated. */
  lemma NonOwnerForbidden(cfg: Config, verify: Verifier, req: Request, w: World, io: Io)
    requires Authenticated(cfg, verify, req) && HasVideoId(req) && req.videoId.value in w.videos
    requires w.videos[req.videoId.value].userID != Caller(cfg, verify, req)
    ensures HandleUploadVideo(cfg, verify, req, w, io) == Response(Failure(Forbidden), w)
  {
  }

  /** A payload over 1 GiB is rejected before staging, whatever its type. */
  lemma OversizeRejected(cfg: Config, verify: Verifier, req: Request, w: World, io: Io)
    requires Owner(cfg, verify, req, w)
    requires req.videoPart.Some? && req.videoPart.value.size > MaxUploadSize
    ensures HandleUploadVideo(cfg, verify, req, w, io) == Response(Failure(BadRequest(FileTooLarge)), w)
  {
  }

  /** The ceiling is inclusive: an MP4 of exactly 2^30 bytes from the owner
      passes every guard and is published when the I/O succeeds. */
  lemma CeilingAccepted(cfg: Config, verify: Verifier, req: Request, w: World, io: Io)
    requires Owner(cfg, verify, req, w)
    requires req.videoPart == Some(FilePart(1073741824, "video/mp4"))
    ensures var r := HandleUploadVideo(cfg, verify, req, w, io);
      && !(r.result.Failure? && r.result.error.IsRejection())
      && (AllOk(io) <==> r.result.Success?)
  {
  }

  /** Any declared type other than exactly "video/mp4" is rejected before staging. */
  lemma WrongTypeRejected(cfg: Config, verify: Verifier, req: Request, w: World, io: Io)
    requires Owner(cfg, verify, req, w)
    requires req.videoPart.Some? && req.videoPart.value.size <= MaxUploadSize
    requires req.videoPart.value.mimeType != "video/mp4"
    ensures HandleUploadVideo(cfg, verify, req, w, io) == Response(Failure(BadRequest(UnsupportedType)), w)
  {
  }

  /** Near matches of the MP4 type are rejected too: the comparison is exact
      and case-sensitive, and parameters are not stripped. */
  lemma NearMissesRejected(cfg: Config, verify: Verifier, req: Request, w: World, io: Io, size: nat)
    requires Owner(cfg, verify, req, w) && size <= MaxUploadSize
    ensures HandleUploadVideo(cfg, verify, req.(videoPart := Some(FilePart(size, "video/MP4"))), w, io)
         == Response(Failure(BadRequest(UnsupportedType)), w)
    ensures HandleUploadVideo(cfg, verify, req.(videoPart := Some(FilePart(size, "video/mp4; codecs=avc1"))), w, io)
         == Response(Failure(BadRequest(UnsupportedType)), w)
    ensures HandleUploadVideo(cfg, verify, req.(videoPart := Some(FilePart(size, "video/avi"))), w, io)
         == Response(Failure(BadRequest(UnsupportedType)), w)
  {
  }

  /** The effect of every exit path after the guards, for an admitted request:
      a failed write changes nothing; a failed upload leaves the staged file
      on disk; a failed update leaves the staged file and the stored object;
      success stores the object as "video/mp4", records the public URL and
      removes the staged file (whether or not it existed before). */
  lemma ExitPathEffects(cfg: Config, verify: Verifier, req: Request, w: World, io: Io)
    requires Owner(cfg, verify, req, w)
    requires req.videoPart.Some? && req.videoPart.value.size <= MaxUploadSize
    requires req.videoPart.value.mimeType == "video/mp4"
    ensures var id := req.videoId.value;
      var key := id + ".mp4";
      var path := "/tmp/" + key;
      var r := HandleUploadVideo(cfg, verify, req, w, io);
      && (!io.writeOk ==> r == Response(Failure(WriteFailed), w))
      && (io.writeOk && !io.putOk ==>
            r == Response(Failure(UploadFailed), w.(tempFiles := w.tempFiles + {path})))
      && (io.writeOk && io.putOk && !io.updateOk ==>
            r == Response(Failure(UpdateFailed),
                          w.(tempFiles := w.tempFiles + {path}, objects := w.objects[key := "video/mp4"])))
      && (AllOk(io) ==>
            && r.result == Success(w.videos[id].(videoURL := Some(PublicUrl(cfg, key))))
            && r.world.objects == w.objects[key := "video/mp4"]
            && r.world.tempFiles == w.tempFiles - {path})
  {
  }

  /** On success the stored key is the video id followed by ".mp4", the
      object was staged under "/tmp/" followed by that key, and the recorded
      URL is the bucket's https address followed by the key. */
  lemma SuccessNames(cfg: Config, verify: Verifier, req: Request, w: World, io: Io)
    requires HandleUploadVideo(cfg, verify, req, w, io).result.Success?
    ensures var id := req.videoId.value;
      var r := HandleUploadVideo(cfg, verify, req, w, io);
      && AllOk(io)
      && StorageKey(id) == id + ".mp4"
      && TempPath(StorageKey(id)) == "/tmp/" + id + ".mp4"
      && r.result.value.videoURL ==
           Some("https://" + cfg.s3Bucket + ".s3." + cfg.s3Region + ".amazonaws.com/" + id + ".mp4")
      && KeyOfUrl(cfg, r.result.value.videoURL.value) == Some(StorageKey(id))
      && StorageKey(id) in r.world.objects && r.world.objects[StorageKey(id)] == "video/mp4"
      && TempPath(StorageKey(id)) !in r.world.tempFiles
  {
    var id := req.videoId.value;
    var r := HandleUploadVideo(cfg, verify, req, w, io);
    PublicUrlRoundTrip(cfg, StorageKey(id));
    assert PublicUrl(cfg, StorageKey(id))
        == "https://" + cfg.s3Bucket + ".s3." + cfg.s3Region + ".amazonaws.com/" + id + ".mp4";
  }

  /** On success only the videoURL of the target record changes: its id,
      owner and other fields stay, and no other record changes. */
  lemma OnlyTargetRecordChanges(cfg: Config, verify: Verifier, req: Request, w: World, io: Io)
    requires KeyedById(w.videos)
    requires HandleUploadVideo(cfg, verify, req, w, io).result.Success?
    ensures var id := req.videoId.value;
      var r := HandleUploadVideo(cfg, verify, req, w, io);
      var v := r.result.value;
      && v.id == w.videos[id].id == id
      && v.userID == w.videos[id].userID
      && v.details == w.videos[id].details
      && r.world.videos == w.videos[id := v]
      && (forall other :: other in w.videos && other != id ==> r.world.videos[other] == w.videos[other])
  {
  }

  /** Metadata is only changed after the object has been stored: whenever a
      run changes the table, it succeeded and the object is in the store. */
  lemma MetadataChangeImpliesStored(cfg: Config, verify: Verifier, req: Request, w: World, io: Io)
    requires HandleUploadVideo(cfg, verify, req, w, io).world.videos != w.videos
    ensures var r := HandleUploadVideo(cfg, verify, req, w, io);
      && r.result.Success?
      && StorageKey(req.videoId.value) in r.world.objects
  {
  }

  /** Every run keeps the table keyed by the records' ids. */
  lemma KeyedByIdPreserved(cfg: Config, verify: Verifier, req: Request, w: World, io: Io)
    requires KeyedById(w.videos)
    ensures KeyedById(HandleUploadVideo(cfg, verify, req, w, io).world.videos)
  {
  }

  /** Every record whose URL points at its own MP4 in the bucket has that object stored. */
  ghost predicate UrlsBacked(cfg: Config, w: World) {
    forall id :: id in w.videos && w.videos[id].videoURL == Some(PublicUrl(cfg, StorageKey(id)))
      ==> StorageKey(id) in w.objects
  }

  /** Every run keeps the URLs it can produce backed by stored objects:
      the handler never records a URL before the object is in the store. */
  lemma UrlsBackedPreserved(cfg: Config, verify: Verifier, req: Request, w: World, io: Io)
    requires KeyedById(w.videos) && UrlsBacked(cfg, w)
    ensures UrlsBacked(cfg, HandleUploadVideo(cfg, verify, req, w, io).world)
  {
  }

  /** Running the same successful upload again answers the same record and
      leaves the same world: the second put overwrites the single object at
      the key, and the URL is unchanged. */
  lemma Idempotent(cfg: Config, verify: Verifier, req: Request, w: World, io: Io)
    requires HandleUploadVideo(cfg, verify, req, w, io).result.Success?
    ensures var r1 := HandleUploadVideo(cfg, verify, req, w, io);
      var r2 := HandleUploadVideo(cfg, verify, req, r1.world, io);
      && r2 == r1
      && r2.world.objects.Keys == w.objects.Keys + {StorageKey(req.videoId.value)}
  {
  }

  /** A failed upload or metadata update leaves the staged file (and possibly
      the stored object) behind; a later successful run of the same request
      repairs this: it answers and leaves exactly what a first-time success
      would have. */
  lemma RetryRepairs(cfg: Config, verify: Verifier, req: Request, w: World, failed: Io, io: Io)
    requires AllOk(io)
    requires HandleUploadVideo(cfg, verify, req, w, failed).result in {Failure(UploadFailed), Failure(UpdateFailed)}
    ensures HandleUploadVideo(cfg, verify, req, HandleUploadVideo(cfg, verify, req, w, failed).world, io)
         == HandleUploadVideo(cfg, verify, req, w, io)
  {
  }

  /** The world after `n` further runs of the same request, each with the same I/O outcomes. */
  function Repeat(cfg: Config, verify: Verifier, req: Request, w: World, io: Io, n: nat): World
    decreases n
  {
    if n == 0 then w else Repeat(cfg, verify, req, HandleUploadVideo(cfg, verify, req, w, io).world, io, n - 1)
  }

  /** Retrying a successful upload any number of times changes nothing
      further: the world after one run is the world after every later run. */
  lemma {:induction false} RepeatStable(cfg: Config, verify: Verifier, req: Request, w: World, io: Io, n: nat)
    requires HandleUploadVideo(cfg, verify, req, w, io).result.Success?
    ensures Repeat(cfg, verify, req, w, io, n + 1) == HandleUploadVideo(cfg, verify, req, w, io).world
    decreases n
  {
    if n > 0 {
      var w1 := HandleUploadVideo(cfg, verify, req, w, io).world;
      Idempotent(cfg, verify, req, w, io);
      RepeatStable(cfg, verify, req, w1, io, n - 1);
    }
  }
}
