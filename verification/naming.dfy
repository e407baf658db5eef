/** The constants of the upload handler and the names it derives from a
    video id: the storage key, the staging path and the public URL. */
module Naming {
  import opened Wrappers
  import opened UploadTypes

  /** The size ceiling, `1 << 30` bytes (1 GiB). */
  const MaxUploadSize: nat := 0x4000_0000

  /** The only content type accepted, compared exactly. */
  const Mp4Type: string := "video/mp4"

  const Mp4Extension: string := ".mp4"

  const TempDir: string := "/tmp/"

  /** `s` with `prefix` removed from its front, or None if `s` does not start with it. */
  function StripPrefix(prefix: string, s: string): Option<string> {
    if prefix <= s then Some(s[|prefix|..]) else None
  }

  /** `s` with `suffix` removed from its end, or None if `s` does not end with it. */
  function StripSuffix(suffix: string, s: string): Option<string> {
    if |suffix| <= |s| && s[|s| - |suffix|..] == suffix then Some(s[..|s| - |suffix|]) else None
  }

  /** The object-store key of a video: its id followed by ".mp4". */
  function StorageKey(videoId: string): (key: string)
    ensures VideoIdOfKey(key) == Some(videoId)
  {
    videoId + Mp4Extension
  }

  /** Recovers the video id from a storage key. */
  function VideoIdOfKey(key: string): Option<string> {
    StripSuffix(Mp4Extension, key)
  }

  /** Where the upload is staged on local disk: the key inside /tmp. */
  function TempPath(key: string): (path: string)
    ensures KeyOfTempPath(path) == Some(key)
  {
    TempDir + key
  }

  /** Recovers the key from a staging path. */
  function KeyOfTempPath(path: string): Option<string> {
    StripPrefix(TempDir, path)
  }

  /** The virtual-hosted-style address of the bucket, up to and including the slash before the key. */
  function UrlBase(cfg: Config): string {
    "https://" + cfg.s3Bucket + ".s3." + cfg.s3Region + ".amazonaws.com/"
  }

  /** The public URL of an object stored under `key`. */
  function PublicUrl(cfg: Config, key: string): (url: string)
    ensures KeyOfUrl(cfg, url) == Some(key)
  {
    UrlBase(cfg) + key
  }

  /** Recovers the key from a public URL of the configured bucket. */
  function KeyOfUrl(cfg: Config, url: string): Option<string> {
    StripPrefix(UrlBase(cfg), url)
  }

  /** The storage key ends in ".mp4" and begins with the video id, and the
      id is recovered from it: the key is a faithful encoding of the id. */
  lemma StorageKeyRoundTrip(videoId: string)
    ensures StorageKey(videoId)[..|videoId|] == videoId
    ensures StorageKey(videoId)[|videoId|..] == ".mp4"
    ensures VideoIdOfKey(StorageKey(videoId)) == Some(videoId)
  {
  }

  /** Every key that decodes to an id is that id's storage key. */
  lemma StorageKeyOnto(key: string, videoId: string)
    requires VideoIdOfKey(key) == Some(videoId)
    ensures StorageKey(videoId) == key
  {
  }

  /** Distinct videos never share a storage key. */
  lemma StorageKeyInjective(a: string, b: string)
    requires StorageKey(a) == StorageKey(b)
    ensures a == b
  {
    StorageKeyRoundTrip(a);
    StorageKeyRoundTrip(b);
  }

  /** The staging path is "/tmp/" followed by the key, and the key is recovered from it. */
  lemma TempPathRoundTrip(key: string)
    ensures TempPath(key)[..5] == "/tmp/"
    ensures TempPath(key)[5..] == key
    ensures KeyOfTempPath(TempPath(key)) == Some(key)
  {
  }

  /** Every path that decodes to a key is that key's staging path. */
  lemma TempPathOnto(path: string, key: string)
    requires KeyOfTempPath(path) == Some(key)
    ensures TempPath(key) == path
  {
  }

  /** Distinct keys are staged at distinct paths. */
  lemma TempPathInjective(a: string, b: string)
    requires TempPath(a) == TempPath(b)
    ensures a == b
  {
    TempPathRoundTrip(a);
    TempPathRoundTrip(b);
  }

  /** The public URL is the bucket's https address followed by the key, and
      the key is recovered from it. */
  lemma PublicUrlRoundTrip(cfg: Config, key: string)
    ensures PublicUrl(cfg, key)[..8] == "https://"
    ensures PublicUrl(cfg, key)[|PublicUrl(cfg, key)| - |key|..] == key
    ensures KeyOfUrl(cfg, PublicUrl(cfg, key)) == Some(key)
  {
  }

  /** Every URL that decodes to a key is that key's public URL. */
  lemma PublicUrlOnto(cfg: Config, url: string, key: string)
    requires KeyOfUrl(cfg, url) == Some(key)
    ensures PublicUrl(cfg, key) == url
  {
  }

  /** Under one configuration, distinct keys get distinct URLs. */
  lemma PublicUrlInjective(cfg: Config, a: string, b: string)
    requires PublicUrl(cfg, a) == PublicUrl(cfg, b)
    ensures a == b
  {
    PublicUrlRoundTrip(cfg, a);
    PublicUrlRoundTrip(cfg, b);
  }
}
