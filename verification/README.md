# Video upload handler — Dafny model

This project models `handlerUploadVideo` from `src/api/videos.ts`. That handler lets a signed-in owner upload an MP4 for one of their videos. In order, it:

- authenticates the bearer token;
- checks the `videoId` path parameter;
- loads the video's metadata row and checks that the caller owns it;
- validates the multipart `video` field (present, at most 1 GiB, type exactly `video/mp4`);
- writes the file to `/tmp/<id>.mp4`;
- uploads it to S3 under the key `<id>.mp4`;
- sets the row's `videoURL` to `https://<bucket>.s3.<region>.amazonaws.com/<id>.mp4` and saves the row;
- removes the staged file.

The model is one pure function, `Handler.HandleUploadVideo`. Its inputs are:

- a configuration (bucket, region, JWT secret);
- the credential check, as a function-typed parameter;
- an abstract request;
- the world: the metadata table, the set of files on local disk, and the object store as a map from key to content type;
- the success or failure of each I/O step (`Io`).

It returns the handler's answer (the updated record or an error) together with the new world.

Modules:
- `Wrappers`: `Option` and `Result`. `Result` works with `:-`, so the first failing guard ends the guard chain.
- `UploadTypes`: configuration, record, request, world, errors, and the table invariant `KeyedById`.
- `Naming`: the constants (`1 << 30`, `"video/mp4"`) and the derived key, staging path and public URL. Each has a decoder, with round-trip, onto and injectivity lemmas.
- `Collaborators`: `getVideo`, `updateVideo`, `Bun.write`, `rm(…, {force: true})` and the S3 put, written as transitions on the world.
- `Handler`: the guard stages, the publishing stage and the handler.
- `Properties`: all-inputs lemmas: guard order, the effect of each exit path, names, idempotence, repair on retry, and preserved invariants.
- `Scenarios`: concrete runs on a two-video world.

The model follows what the code does, including where one might expect otherwise:
- **Cleanup is not guaranteed.** A scoped cleanup would remove the staged file on every exit path. The code calls `rm` only after a successful upload and update; there is no `try`/`finally`. If the S3 upload or the metadata update fails, `/tmp/<id>.mp4` stays on disk. `Properties.ExitPathEffects` and `Scenarios.ScenarioUploadFails` state this. A later successful run removes it (`Properties.RetryRepairs`).
- **No error classes for storage or metadata failures.** The code has no dedicated error classes for a failed write, upload or update: those exceptions escape unchanged. The model names them `WriteFailed`, `UploadFailed` and `UpdateFailed`.
- **An empty `videoId` is rejected.** The code's `!videoId` test is JavaScript falsiness, so the empty string is refused with the same Bad Request as a missing parameter.
- **Guard order.** The `videoId` check runs after authentication.

## Model

| member | source | states |
|---|---|---|
| Handler.Authenticate | src/api/videos.ts:14-15 | Succeeds exactly when a bearer token is present and verifies against the configured secret, yielding the verified identity; otherwise Unauthenticated |
| Handler.RequireVideoId | src/api/videos.ts:17-20 | Succeeds exactly when the path parameter is present and non-empty, returning it; otherwise Bad Request (invalid video id) |
| Handler.Authorize | src/api/videos.ts:22-28 | NotFound exactly when no row has the id; Forbidden exactly when the row's owner differs from the caller; otherwise returns that row unchanged |
| Handler.ValidatePart | src/api/videos.ts:30-41 | Missing file, size over 2^30, and any type other than exactly "video/mp4" each give their own Bad Request, in that order (the ceiling is the constant `Naming.MaxUploadSize`, `1 << 30` from line 13); success exactly when present, at most 2^30 bytes and "video/mp4" |
| Handler.Guards | src/api/videos.ts:14-41 | Every failure is a rejection (401/400/404/403 class); success implies every guard's condition holds of the admitted id, record and file |
| Handler.Publish | src/api/videos.ts:43-56 | Succeeds exactly when write, upload and update all succeed. Failed write: world unchanged. Failed upload: only the staged file added. Failed update: staged file added and object put, table unchanged. Success: the answer is the row with the public URL of the id's key, the table holds that row written back by id, the object is put under the key with the file's type, and the staged file is removed |
| Handler.HandleUploadVideo | src/api/videos.ts:12-57 | A rejection leaves the world unchanged; disk changes only if the write happened; success implies the caller owns the named video and the answer is that row with the public URL of "<id>.mp4" |
| Collaborators.GetVideo | src/api/videos.ts:22 | Finds a record exactly when the id is in the table, and then it is that id's record |
| Collaborators.UpdateVideo | src/api/videos.ts:52 | Same set of ids; the record's own id now holds it; every other row unchanged |
| Collaborators.WriteFile | src/api/videos.ts:46 | The path exists afterwards (overwriting); no other file changes |
| Collaborators.RemoveFile | src/api/videos.ts:54 | The path is absent afterwards whether or not it existed (force); no other file changes |
| Collaborators.PutObject | src/api/videos.ts:48 | The key is stored with the given content type, overwriting; every other object unchanged |
| Collaborators.RemoveAfterWrite | src/api/videos.ts:46-54 | Writing then removing the staged file equals just removing it, and restores the disk when no file was there before |
| Collaborators.PutObjectIdempotent | src/api/videos.ts:48 | Putting the same key and type twice equals putting it once |
| Naming.StorageKey | src/api/videos.ts:43 | The key decodes back to the video id (so the id is recoverable from the key) |
| Naming.TempPath | src/api/videos.ts:44 | The staging path decodes back to the key |
| Naming.PublicUrl | src/api/videos.ts:50 | The URL decodes back to the key under the same configuration |
| Naming.StorageKeyRoundTrip | src/api/videos.ts:43 | The key is the id followed by ".mp4", and the id is decoded back from it |
| Naming.StorageKeyOnto | src/api/videos.ts:43 | Any key that decodes to an id is exactly that id's key |
| Naming.StorageKeyInjective | src/api/videos.ts:43 | Distinct video ids never share a storage key |
| Naming.TempPathRoundTrip | src/api/videos.ts:44 | The staging path is "/tmp/" followed by the key, and the key is decoded back from it |
| Naming.TempPathOnto | src/api/videos.ts:44 | Any path that decodes to a key is exactly that key's staging path |
| Naming.TempPathInjective | src/api/videos.ts:44 | Distinct keys are staged at distinct paths |
| Naming.PublicUrlRoundTrip | src/api/videos.ts:50 | The URL starts with "https://", ends with the key, and the key is decoded back from it |
| Naming.PublicUrlOnto | src/api/videos.ts:50 | Any URL of the bucket that decodes to a key is exactly that key's public URL |
| Naming.PublicUrlInjective | src/api/videos.ts:50 | Under one configuration distinct keys have distinct URLs |
| Properties.GuardOrder | src/api/videos.ts:14-41 | Each of the seven rejections happens if and only if every earlier guard passed and its own failed (auth, then id, lookup, ownership, presence, size, type); no rejection changes the world |
| Properties.NonOwnerForbidden | src/api/videos.ts:26-28 | An authenticated non-owner of an existing video gets Forbidden for every payload and I/O outcome; table, disk and store are unchanged |
| Properties.OversizeRejected | src/api/videos.ts:36-38 | For the owner, a size over 2^30 gives Bad Request (too large) with nothing staged, uploaded or updated |
| Properties.CeilingAccepted | src/api/videos.ts:36-38 | A file of exactly 2^30 bytes of type "video/mp4" passes every guard, and is published exactly when all I/O succeeds |
| Properties.WrongTypeRejected | src/api/videos.ts:39-41 | For the owner with an in-bounds size, any type other than exactly "video/mp4" gives Bad Request (type) with the world unchanged |
| Properties.NearMissesRejected | src/api/videos.ts:39-41 | "video/MP4", "video/mp4; codecs=avc1" and "video/avi" are all rejected before staging |
| Properties.ExitPathEffects | src/api/videos.ts:43-54 | For an admitted request: write failure changes nothing; upload failure leaves "/tmp/<id>.mp4" on disk; update failure leaves it and the stored object; success stores "<id>.mp4" as "video/mp4", records the URL and removes the staged file |
| Properties.SuccessNames | src/api/videos.ts:43-50 | On success the key is id+".mp4", the staging path "/tmp/"+key, the recorded URL "https://"+bucket+".s3."+region+".amazonaws.com/"+key, which decodes back to the key; the key is stored as "video/mp4" and not left on disk |
| Properties.OnlyTargetRecordChanges | src/api/videos.ts:50-52 | On success only the target row's videoURL changes: its id, owner and other fields stay, and every other row is unchanged |
| Properties.MetadataChangeImpliesStored | src/api/videos.ts:46-52 | Whenever a run changes the metadata table it succeeded and the object is in the store |
| Properties.KeyedByIdPreserved | src/api/videos.ts:22-52 | Every run keeps each row stored under its own id |
| Properties.UrlsBackedPreserved | src/api/videos.ts:48-52 | Every run keeps the invariant that a row whose URL points at its own key has that key stored |
| Properties.Idempotent | src/api/videos.ts:43-52 | Re-running a successful upload answers the same record and leaves the same world; the store holds a single entry at the key |
| Properties.RetryRepairs | src/api/videos.ts:46-54 | After a failed upload or update, a successful re-run answers and leaves exactly what a first success would, removing the leftover staged file |
| Properties.RepeatStable | src/api/videos.ts:43-54 | Any number of further runs of a successful upload leave the world as one run did |
| Scenarios.ScenarioSuccess | src/api/videos.ts:12-57 | Owner uploads 50 MB MP4: URL "https://tubely-demo.s3.us-east-2.amazonaws.com/vid-42.mp4", object stored, no temp file, other row untouched |
| Scenarios.ScenarioForbidden | src/api/videos.ts:26-28 | Another user's video: Forbidden, world unchanged |
| Scenarios.ScenarioWrongType | src/api/videos.ts:39-41 | "video/avi": Bad Request, world unchanged |
| Scenarios.ScenarioSizeBoundary | src/api/videos.ts:36-38 | 2^30+1 bytes rejected as too large; exactly 2^30 bytes accepted |
| Scenarios.ScenarioUploadFails | src/api/videos.ts:46-48 | S3 failure: the error escapes, metadata and store unchanged, "/tmp/vid-42.mp4" remains |
| Scenarios.ScenarioGuardOrder | src/api/videos.ts:14-35 | A bad or missing token beats a missing id (both with no id given); an empty id beats the lookup; then NotFound, then missing file |

## Left out

- Handler.Authenticate: the error for a missing or malformed Authorization header is assumed to be Unauthenticated (401). The handler only calls `getBearerToken(req.headers)`, whose error class is not part of this model.
- Token extraction and verification (`getBearerToken`, `validateJWT`) are not part of this model. The verifier is a parameter. A missing or malformed Authorization header is a request whose `bearer` is None.
- The S3 client (`uploadVideoToS3`) is not part of this model. It is an abstract put that succeeds or fails according to `Io.putOk`. The store keeps each key's content type, not its bytes.
- Multipart parsing is not modelled: `req.formData()` and the `instanceof File` test become the `videoPart` option. A body that is not valid multipart, which would make `formData()` throw, is not modelled.
- The file's bytes are not modelled. Only the declared size and type matter to the handler.
- `Bun.write` failure is modelled as creating no file. A partially written file is not modelled.
- `rm` failures other than a missing file are not modelled, because they are outside set membership.
- `path.join` normalisation of `..` or `/` inside `videoId` is not modelled. The staging path is plain concatenation of "/tmp/" and the key. So Naming.TempPathOnto and Naming.TempPathInjective hold for that concatenation only: under `path.join`, the ids "a/../b" and "b" would both stage at `/tmp/b.mp4`.
- HTTP status codes and JSON serialisation (`respondWithJSON`) are not modelled. The answer is the record or an error tag.
- The SQLite mechanics behind `getVideo` and `updateVideo` are not modelled. They are a map lookup and an update by the record's own id, which changes nothing when the id is absent.
- Storage errors are not split into transient and permanent failures, because the code does not distinguish them. The same holds for any other cause behind the three escaping exceptions.
- Async scheduling and concurrent uploads racing on the same key are not modelled. Each run is one atomic transition of the world.
- Properties.OnlyTargetRecordChanges assumes the table invariant `KeyedById`, which every run preserves. Without it, the row stored under an id could carry a different id, and `updateVideo` would then write to another row.
