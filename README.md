# Dropbox storage backend for Django, modelled in Dafny

`DropBoxStorage` lets a Django application store files in Dropbox through
Django's pluggable storage interface. This project models its own logic:

- the checks its constructors make (`DropBoxStorage.__init__`,
  `DropBoxTeamStorage.__init__`), with Django settings as an explicit input;
- path resolution (`_full_path`): `/` taken as the empty name, the name
  joined to the root by `safe_join`, backslashes rewritten to slashes;
- `exists`, which turns an `ApiError` from the metadata lookup into `False`;
- `listdir`, which splits a folder's entries into directory names and file
  names by cutting the folder path and then one `/` out of each entry path;
- `_save` and `_chunked_upload`: content of at most `CHUNK_SIZE` (4 MiB) goes
  out in one `files_upload`; longer content opens an upload session with the
  first chunk, appends whole chunks while more than one chunk remains,
  moving the cursor offset to the stream position after each append, and
  finishes the session with the rest.

The Dropbox client is a recorder (`DropboxApi.Client`): each upload call is
appended to a ghost trace of `Call` values, and `files_get_metadata` is a
function the client is built with. The content is an in-memory Django file
(`DjangoFile.Content`) with a read position. `safe_join` is a function the
storage is given; None stands for the `SuspiciousFileOperation` it raises.
The methods `Save` and `ChunkedUpload` are proved to make exactly the calls
given by the functions `UploadTrace.SaveTrace` and `UploadTrace.ChunkedTrace`,
and the lemmas of `UploadTrace` state what those calls amount to: one start,
whole-chunk appends, one finish, offsets equal to the bytes read, payloads
that concatenate back to the content, and, replayed against a consistent
remote (`DropboxApi.Replay`), the content stored at the destination path.

Files: `errors.dfy` (exceptions as values), `text.dfy` (`str.find`,
`str.replace`), `django_file.dfy`, `dropbox_api.dfy`, `upload_trace.dfy`,
`listing.dfy`, `config.dfy`, `storage.dfy`.

Three behaviours of the code are worth stating plainly: `exists` returns
the truthiness of the metadata, not a plain `True`; it maps every `ApiError`
to `False`, whatever its cause, while any other exception propagates; and
`_save` leaves the content open when `safe_join` raises. Nothing is claimed
about `safe_join` rejecting traversal, since its code is not part of this
model.

## Model

| member | source | states |
|---|---|---|
| `Config.OrElse` | storages/backends/dropbox.py:57 | an argument that is absent or empty gives way to the setting, as Python's `or` does; a non-empty one wins |
| `Config.RootPathOf` | storages/backends/dropbox.py:58 | the root path is the non-empty argument, else the `DROPBOX_ROOT_PATH` setting when there is one, else `/` |
| `Config.StorageConfig` | storages/backends/dropbox.py:56-62 | construction fails with `ImproperlyConfigured` and the source's message exactly when no token is given and none is configured; otherwise it keeps the given non-empty token, or else the `DROPBOX_OAUTH2_TOKEN` setting, and the resolved root |
| `Config.TeamStorageConfig` | storages/backends/dropbox.py:160-175 | team construction checks token, then namespace, then admin, failing with the message of the first one missing; it succeeds exactly when all three are present and then holds the namespace and admin |
| `Config.TeamStorageRefinesBase` | storages/backends/dropbox.py:160-175 | the team variant fails whenever the base storage would, with the same error, and when it succeeds holds the token and root the base storage would |
| `Config.TeamStorageConfigAsWritten` | storages/backends/dropbox.py:160-185 | as written no input constructs a team storage: with all three settings present it fails with `NameError` on `DropboxTeam`, and with one missing it fails exactly as the intended `TeamStorageConfig` does |
| `Config.TeamStorageMissingImport` | storages/backends/dropbox.py:178-185 | a fully configured team storage fails as written and is constructed as intended |
| `Storage.DropBoxStorage.constructor` | storages/backends/dropbox.py:56-62 | a storage keeps the configured root, uses a 4 MiB chunk size and gets a fresh client that has received no calls |
| `Text.SlashSeparators` | storages/backends/dropbox.py:67 | every backslash becomes a slash, every other character is kept, the length is kept, and no backslash remains |
| `Storage.ResolvePath` | storages/backends/dropbox.py:64-67 | a name `safe_join` refuses raises `SuspiciousFileOperation`; otherwise the result is the joined path, of the same length, with each backslash turned into `/` and every other character kept, so it contains no backslash |
| `Storage.ResolveSlashIsRoot` | storages/backends/dropbox.py:65-67 | `/` resolves exactly as the empty name does, to the root join |
| `Storage.ResolvedPathIsNormal` | storages/backends/dropbox.py:67 | rewriting the separators of a resolved path again changes nothing |
| `Storage.DropBoxStorage.Exists` | storages/backends/dropbox.py:72-76 | an `ApiError` from the lookup gives `false` and is never raised; any other exception from the lookup is raised; found metadata gives its truthiness; a refused name raises `SuspiciousFileOperation` |
| `Text.RemoveFirst` | storages/backends/dropbox.py:83-84 | `replace(pat, '', 1)`: unchanged when `pat` does not occur, otherwise exactly `pat`'s length shorter |
| `Text.RemoveFirstCutsFirstOccurrence` | storages/backends/dropbox.py:83-84 | the cut is at the first occurrence of `pat`: the text before it is kept and the text after it follows directly |
| `Storage.DropBoxStorage.Listdir` | storages/backends/dropbox.py:78-89 | a refused name, an `ApiError` and any other exception from the lookup are raised; otherwise the result is the listing `Listing.ListingOf` gives for the folder's entries |
| `Listing.NamesExtend` | storages/backends/dropbox.py:85-88 | each (rewritten) entry adds its path to `directories` if it is a directory and to `files` otherwise, leaving the other list as it was |
| `Listing.NamesAppend` | storages/backends/dropbox.py:82-88 | listing a concatenation of entries lists the parts one after the other: order is preserved |
| `Listing.NamesPartition` | storages/backends/dropbox.py:85-88 | every entry goes to exactly one of the two lists |
| `Listing.ListingPartitions` | storages/backends/dropbox.py:79-89 | `directories` and `files` together are exactly as long as the entries |
| `Listing.ListingPlacesEntry` | storages/backends/dropbox.py:82-88 | entry `i` appears, under its child name, in the list its `is_dir` selects, right after the earlier entries of the same kind, and not in the other list |
| `Listing.ChildNameOfChild` | storages/backends/dropbox.py:83-84 | an entry reported as `full_path + "/" + n` is listed as `n` |
| `Listing.ChildNameAtRoot` | storages/backends/dropbox.py:83-84 | at the root `/`, an entry `"/" + n` with no `/` in `n` is listed as `n` |
| `Listing.ListingOfFileAndDirectory` | storages/backends/dropbox.py:78-89 | a folder with a file and then a directory lists the directory's child name as its one directory and the file's as its one file |
| `Listing.ListingOfTwoChildren` | storages/backends/dropbox.py:78-89 | a folder with a file `f` and a directory `d` lists `[d]` and `[f]` (for `/a`: `["c"]` and `["b.txt"]`) |
| `Storage.DropBoxStorage.Save` | storages/backends/dropbox.py:113-120 | `_save` returns the unresolved name, leaves the content read to its end and closed, and makes exactly the calls of `SaveTrace`; a refused name makes no call and leaves the content open |
| `UploadTrace.SaveTraceSendsContent` | storages/backends/dropbox.py:115-118 | content of at most one chunk is one whole-payload upload to the resolved path and nothing else; longer content makes no single-shot upload; the payloads are the whole content |
| `Storage.DropBoxStorage.ChunkedUpload` | storages/backends/dropbox.py:122-141 | the loop terminates with the stream at its end, one session id is taken, and the calls made are exactly those of `ChunkedTrace`; the cursor offset equals the stream position after the start and after each append |
| `UploadTrace.ChunkedTraceStartsOnce` | storages/backends/dropbox.py:123-140 | from any stream position, the first call starts the session with the first read of at most one chunk; no later call starts a session or uploads in one shot, and all carry the session id; the last call finishes the session exactly when more than one chunk remained |
| `UploadTrace.ChunkedTraceShape` | storages/backends/dropbox.py:123-140 | for content longer than one chunk: one start with the first chunk, first; one finish to the destination, last, so no call follows it; every call between is an append of exactly one chunk; all carry the session id |
| `UploadTrace.ChunkedTraceSendsRest` | storages/backends/dropbox.py:123-141 | the payloads in call order concatenate to the bytes from the starting position to the end, none exceeds one chunk, and every offset equals the bytes read before the call |
| `UploadTrace.SessionLoopSendsRest` | storages/backends/dropbox.py:132-140 | the loop's payloads concatenate to the unread bytes, each at most one chunk |
| `UploadTrace.SessionLoopShape` | storages/backends/dropbox.py:132-140 | the loop makes no call only on an exhausted stream; otherwise it makes whole-chunk appends and ends with its only finish, to the destination, including when the rest is an exact multiple of the chunk size |
| `UploadTrace.SessionLoopOffsets` | storages/backends/dropbox.py:132-141 | the offset of every append and finish is the stream position before it, i.e. the bytes read so far |
| `UploadTrace.SessionLoopLength` | storages/backends/dropbox.py:132-140 | the loop makes as many calls as the unread bytes span chunks (the ceiling of remaining / chunk size) |
| `UploadTrace.SessionLoopCommits` | storages/backends/dropbox.py:132-140 | replayed against a consistent remote, the loop commits the whole content to the destination, closes the session and touches no other file |
| `UploadTrace.SaveRoundTrip` | storages/backends/dropbox.py:113-141 | what `_save` sends, replayed against a consistent remote, stores exactly the content at the resolved path and changes nothing else |
| `UploadTrace.ChunkedTraceShortStream` | storages/backends/dropbox.py:122-132 | `_chunked_upload` started with at most one chunk unread sends it with the start and never finishes the session (`_save` never calls it so) |

## Findings

| source | as written | input that shows it | evidently intended | confidence | as-written member | corrected member |
|---|---|---|---|---|---|---|
| storages/backends/dropbox.py:178 | `DropBoxTeamStorage.__init__` calls `DropboxTeam`, but the module imports only `Dropbox` (line 22), so construction raises `NameError` once all checks pass | token `"t"`, namespace `"ns"`, admin `"admin"` | a team storage is constructed when token, namespace and admin are all present | high (not executed) | `Config.TeamStorageConfigAsWritten` | `Config.TeamStorageConfig` |

## Left out

- `DropBoxFile` and `_open`: lazy download into a spooled temporary file is I/O with no logic beyond caching.
- `delete`, `size` and `url`: each passes one call through to the client.
- `modified_time` and `accessed_time`: they parse timestamps with `datetime.strptime` and a locale-dependent format, library code not part of this model.
- `safe_join` is Django code not part of this model; it is a function given to the storage, and no traversal property is claimed.
- The Dropbox client and remote are foreign: upload calls are recorded events, metadata answers are a given function, and session ids come from a counter standing in for the remote's.
- `DropboxTeam(...)`, its `Dropbox-API-Path-Root` header and `as_admin` (lines 178-185): client construction is not modelled; the team configuration only keeps the namespace and admin.
- The `headers` argument of `DropBoxTeamStorage.__init__` is accepted and never used, so it does not appear in the model.
- Settings lookup and `@deconstructible`: settings are an explicit `Config.Settings` input.
- `Storage.DropBoxStorage.Exists`: Python's `bool(metadata)` is modelled as a flag carried by the metadata, not computed from a response object.
- `Storage.DropBoxStorage.Listdir`: the source rewrites `entry['path']` inside the response; the response is local to the call, so the model rewrites a local copy of each entry.
- `Storage.DropBoxStorage.Save`: the upload calls are taken never to fail; an exception from `files_upload` or a session call would propagate and leave the content open and, for a session, unfinished, which the model does not represent.
- `Storage.DropBoxStorage.ChunkedUpload`: the loop ends because `content.size` equals the number of bytes the stream yields; `DjangoFile.Content` guarantees this by construction, whereas a file object whose size and reads disagree is not modelled.
- `DjangoFile.Content` models an in-memory file: `open()` puts the position at 0; reopening a file from disk is not modelled.
