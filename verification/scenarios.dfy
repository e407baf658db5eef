/** Concrete runs of the upload handler on a small world. */
module Scenarios {
  import opened Wrappers
  import opened UploadTypes
  import opened Naming
  import opened Handler

  const Cfg := Config("tubely-demo", "us-east-2", "s3cr3t")

  /** A stand-in credential check: one token, valid for "user-1" under the configured secret. */
  function DemoVerify(token: string, secret: string): Option<Identity> {
    if token == "good-token" && secret == "s3cr3t" then Some("user-1") else None
  }

  const Owned := VideoRecord("vid-42", "user-1", None, map["title" := "Boots"])
  const Foreign := VideoRecord("vid-7", "user-2", None, map[])

  const Start := World(map["vid-42" := Owned, "vid-7" := Foreign], {}, map[])

  const AllIo := Io(true, true, true)

  /** The demo video's storage key. */
  lemma DemoKey()
    ensures StorageKey("vid-42") == "vid-42.mp4"
    ensures TempPath("vid-42.mp4") == "/tmp/vid-42.mp4"
  {
  }

  /** The demo video's public URL, assembled piece by piece. */
  lemma DemoUrl()
    ensures PublicUrl(Cfg, "vid-42.mp4") == "https://tubely-demo.s3.us-east-2.amazonaws.com/vid-42.mp4"
  {
    var base := UrlBase(Cfg);
    assert "https://" + "tubely-demo" == "https://tubely-demo";
    assert "https://tubely-demo" + ".s3." == "https://tubely-demo.s3.";
    assert "https://tubely-demo.s3." + "us-east-2" == "https://tubely-demo.s3.us-east-2";
    assert "https://tubely-demo.s3.us-east-2" + ".amazonaws.com/" == "https://tubely-demo.s3.us-east-2.amazonaws.com/";
    assert base == "https://tubely-demo.s3.us-east-2.amazonaws.com/";
  }

  /** Owner uploads a 50 MB MP4: the URL is recorded, the object stored, no temp file left. */
  lemma ScenarioSuccess()
    ensures var r := HandleUploadVideo(Cfg, DemoVerify,
                       Request(Some("good-token"), Some("vid-42"), Some(FilePart(50_000_000, "video/mp4"))), Start, AllIo);
      && r.result == Success(Owned.(videoURL := Some("https://tubely-demo.s3.us-east-2.amazonaws.com/vid-42.mp4")))
      && r.world.objects == map["vid-42.mp4" := "video/mp4"]
      && r.world.tempFiles == {}
      && r.world.videos["vid-7"] == Foreign
  {
    var req := Request(Some("good-token"), Some("vid-42"), Some(FilePart(50_000_000, "video/mp4")));
    var a := Admitted("vid-42", Owned, FilePart(50_000_000, "video/mp4"));
    assert Guards(Cfg, DemoVerify, req, Start.videos) == Success(a);
    DemoKey();
    DemoUrl();
    var r := Publish(Cfg, a, Start, AllIo);
    assert HandleUploadVideo(Cfg, DemoVerify, req, Start, AllIo) == r;
  }

  /** Someone else's video: Forbidden, and the world is untouched. */
  lemma ScenarioForbidden()
    ensures HandleUploadVideo(Cfg, DemoVerify,
              Request(Some("good-token"), Some("vid-7"), Some(FilePart(50_000_000, "video/mp4"))), Start, AllIo)
         == Response(Failure(Forbidden), Start)
  {
  }

  /** An AVI upload is refused before staging. */
  lemma ScenarioWrongType()
    ensures HandleUploadVideo(Cfg, DemoVerify,
              Request(Some("good-token"), Some("vid-42"), Some(FilePart(50_000_000, "video/avi"))), Start, AllIo)
         == Response(Failure(BadRequest(UnsupportedType)), Start)
  {
  }

  /** One byte over 1 GiB is refused; exactly 1 GiB is accepted. */
  lemma ScenarioSizeBoundary()
    ensures HandleUploadVideo(Cfg, DemoVerify,
              Request(Some("good-token"), Some("vid-42"), Some(FilePart(1073741825, "video/mp4"))), Start, AllIo)
         == Response(Failure(BadRequest(FileTooLarge)), Start)
    ensures HandleUploadVideo(Cfg, DemoVerify,
              Request(Some("good-token"), Some("vid-42"), Some(FilePart(1073741824, "video/mp4"))), Start, AllIo)
            .result.Success?
  {
  }

  /** The upload to the object store fails: the error escapes, the metadata
      is unchanged, and the staged file stays on disk. */
  lemma ScenarioUploadFails()
    ensures var r := HandleUploadVideo(Cfg, DemoVerify,
                       Request(Some("good-token"), Some("vid-42"), Some(FilePart(50_000_000, "video/mp4"))),
                       Start, Io(true, false, true));
      && r.result == Failure(UploadFailed)
      && r.world.videos == Start.videos
      && r.world.objects == Start.objects
      && "/tmp/vid-42.mp4" in r.world.tempFiles
  {
    DemoKey();
  }

  /** Authentication is checked first: a bad token with a missing video id is
      Unauthenticated, and an empty video id with a good token is Bad Request
      even before the lookup. */
  lemma ScenarioGuardOrder()
    ensures HandleUploadVideo(Cfg, DemoVerify, Request(Some("bad-token"), None, None), Start, AllIo).result
         == Failure(Unauthenticated)
    ensures HandleUploadVideo(Cfg, DemoVerify, Request(None, None, None), Start, AllIo).result
         == Failure(Unauthenticated)
    ensures HandleUploadVideo(Cfg, DemoVerify, Request(Some("good-token"), Some(""), None), Start, AllIo).result
         == Failure(BadRequest(InvalidVideoId))
    ensures HandleUploadVideo(Cfg, DemoVerify, Request(Some("good-token"), Some("vid-9"), None), Start, AllIo).result
         == Failure(NotFound)
    ensures HandleUploadVideo(Cfg, DemoVerify, Request(Some("good-token"), Some("vid-42"), None), Start, AllIo).result
         == Failure(BadRequest(VideoFileMissing))
  {
  }
}
