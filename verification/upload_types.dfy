/** The entities the upload handler reads and writes. */
module UploadTypes {
  import opened Wrappers

  /** The subject of a verified bearer credential (the user id). */
  type Identity = string

  /** The part of the server configuration the handler uses. */
  datatype Config = Config(s3Bucket: string, s3Region: string, jwtSecret: string)

  /** One row of the video metadata table. `details` stands for the columns
      this handler never touches (title, description, thumbnail, ...). */
  datatype VideoRecord = VideoRecord(
    id: string,
    userID: Identity,
    videoURL: Option<string>,
    details: map<string, string>)

  /** The multipart field named "video", when it is a file: only its `size`
      in bytes and its `type` matter here. `mimeType` is the `type` of the
      `File` the runtime produced from the multipart part, as the handler
      compares it; any normalisation the runtime's parser applies to the
      part's declared Content-Type happens before this value exists. */
  datatype FilePart = FilePart(size: nat, mimeType: string)

  /** An upload request, already split into what the handler looks at:
      the bearer token (None when the Authorization header is missing or not
      of the bearer form), the `videoId` path parameter, and the "video"
      form field (None when it is absent or not a file). */
  datatype Request = Request(
    bearer: Option<string>,
    videoId: Option<string>,
    videoPart: Option<FilePart>)

  /** Everything outside the handler that it can change: the metadata table
      keyed by video id, the set of files present on the local disk, and the
      object store mapping each key to the content type it was stored with. */
  datatype World = World(
    videos: map<string, VideoRecord>,
    tempFiles: set<string>,
    objects: map<string, string>)

  /** Whether each effectful step succeeds: writing the staged file,
      putting it to the object store, and updating the metadata row. */
  datatype Io = Io(writeOk: bool, putOk: bool, updateOk: bool)

  /** The credential check: maps (token, secret) to the identity it proves,
      or None when the token is malformed, expired or badly signed. */
  type Verifier = (string, string) -> Option<Identity>

  /** The reasons the handler answers 400 Bad Request. */
  datatype BadInput = InvalidVideoId | VideoFileMissing | FileTooLarge | UnsupportedType

  /** How a request can end other than in success. The first four are the
      guard failures; the last three are exceptions escaping from the
      staging write, the object-store put and the metadata update. */
  datatype Error =
    | Unauthenticated
    | BadRequest(why: BadInput)
    | NotFound
    | Forbidden
    | WriteFailed
    | UploadFailed
    | UpdateFailed
  {
    /** A guard failure: raised before anything is written anywhere. */
    predicate IsRejection() {
      Unauthenticated? || BadRequest? || NotFound? || Forbidden?
    }
  }

  /** What the handler answers (the updated record, or an error) together
      with the world as it left it. */
  datatype Response = Response(result: Result<VideoRecord, Error>, world: World)

  /** The metadata table is keyed by the records' own ids. */
  ghost predicate KeyedById(videos: map<string, VideoRecord>) {
    forall id :: id in videos ==> videos[id].id == id
  }
}
