/** The handler's collaborators as transitions on the abstract world: the
    metadata table (`getVideo`/`updateVideo`), the local disk (`Bun.write`,
    `rm` with `force: true`) and the object store (the put inside
    `uploadVideoToS3`). */
module Collaborators {
  import opened Wrappers
  import opened UploadTypes

  /** Looks a video up by id. */
  function GetVideo(videos: map<string, VideoRecord>, videoId: string): (r: Option<VideoRecord>)
    ensures r.Some? <==> videoId in videos
    ensures r.Some? ==> r.value == videos[videoId]
  {
    if videoId in videos then Some(videos[videoId]) else None
  }

  /** Writes a record back under its own id. As with an SQL UPDATE, a record
      whose id is not in the table changes nothing. */
  function UpdateVideo(videos: map<string, VideoRecord>, video: VideoRecord): (r: map<string, VideoRecord>)
    ensures r.Keys == videos.Keys
    ensures video.id in videos ==> r[video.id] == video
    ensures forall id :: id in videos && id != video.id ==> r[id] == videos[id]
  {
    if video.id in videos then videos[video.id := video] else videos
  }

  /** Writes a file at `path`, replacing any file already there. */
  function WriteFile(files: set<string>, path: string): (r: set<string>)
    ensures path in r
    ensures forall p :: p != path ==> (p in r <==> p in files)
  {
    files + {path}
  }

  /** Removes the file at `path`; a missing file is not an error. */
  function RemoveFile(files: set<string>, path: string): (r: set<string>)
    ensures path !in r
    ensures forall p :: p != path ==> (p in r <==> p in files)
  {
    files - {path}
  }

  /** Stores an object under `key` with the given content type, overwriting
      any object already stored under that key. */
  function PutObject(objects: map<string, string>, key: string, contentType: string): (r: map<string, string>)
    ensures r.Keys == objects.Keys + {key}
    ensures r[key] == contentType
    ensures forall k :: k in objects && k != key ==> r[k] == objects[k]
  {
    objects[key := contentType]
  }

  /** Removing a file that was just written leaves every other file as it
      was and no file at that path. */
  lemma RemoveAfterWrite(files: set<string>, path: string)
    ensures RemoveFile(WriteFile(files, path), path) == RemoveFile(files, path)
    ensures path !in files ==> RemoveFile(WriteFile(files, path), path) == files
  {
  }

  /** Putting the same object twice is the same as putting it once. */
  lemma PutObjectIdempotent(objects: map<string, string>, key: string, contentType: string)
    ensures PutObject(PutObject(objects, key, contentType), key, contentType) == PutObject(objects, key, contentType)
  {
  }
}
