/** `DropBoxStorage`: path resolution, `exists`, `listdir`, `_save` and
    `_chunked_upload`. Django's `safe_join` is a function the storage is
    given (None standing for the `SuspiciousFileOperation` it raises); the
    Dropbox client is the recorder of `DropboxApi`. */
module Storage {
  import opened Text
  import opened Errors
  import opened DjangoFile
  import opened DropboxApi
  import opened UploadTrace
  import opened Listing
  import opened Config

  /** `_full_path(name)`: `/` is taken as the empty name, the name is joined
      to the root with `safe_join`, and every backslash of the joined path
      becomes a slash. */
  function ResolvePath(root: string, name: string, safeJoin: (string, string) -> Option<string>): (r: Result<string>)
    ensures safeJoin(root, if name == "/" then "" else name).None? ==> r == Err(SuspiciousFileOperation)
    ensures safeJoin(root, if name == "/" then "" else name).Some? ==>
              var joined := safeJoin(root, if name == "/" then "" else name).value;
              r.Ok? && |r.value| == |joined| &&
              (forall i :: 0 <= i < |joined| && joined[i] != '\\' ==> r.value[i] == joined[i]) &&
              (forall i :: 0 <= i < |joined| && joined[i] == '\\' ==> r.value[i] == '/')
    ensures r.Ok? ==> '\\' !in r.value
  {
    var n := if name == "/" then "" else name;
    match safeJoin(root, n)
    case None => Err(SuspiciousFileOperation)
    case Some(joined) => Ok(SlashSeparators(joined))
  }

  /** `/` resolves exactly as the empty name does: to the root itself. */
  lemma ResolveSlashIsRoot(root: string, safeJoin: (string, string) -> Option<string>)
    ensures ResolvePath(root, "/", safeJoin) == ResolvePath(root, "", safeJoin)
    ensures safeJoin(root, "").Some? ==> ResolvePath(root, "/", safeJoin) == Ok(SlashSeparators(safeJoin(root, "").value))
  {
  }

  /** A resolved path is already in the form the remote expects: resolving
      its separators again changes nothing. */
  lemma ResolvedPathIsNormal(root: string, name: string, safeJoin: (string, string) -> Option<string>)
    requires ResolvePath(root, name, safeJoin).Ok?
    ensures SlashSeparators(ResolvePath(root, name, safeJoin).value) == ResolvePath(root, name, safeJoin).value
  {
    var n := if name == "/" then "" else name;
    SlashSeparatorsIdempotent(safeJoin(root, n).value);
  }

  class DropBoxStorage {
    /** `CHUNK_SIZE`: the largest content sent in one call. */
    const chunkSize: nat
    const rootPath: string
    const safeJoin: (string, string) -> Option<string>
    const client: Client

    /** The storage built from a configuration that passed the checks of
        `Config`, with a fresh client. */
    constructor (config: Config, safeJoin: (string, string) -> Option<string>,
                 getMetadata: string -> MetadataResponse)
      ensures chunkSize == CHUNK_SIZE && rootPath == config.rootPath && this.safeJoin == safeJoin
      ensures fresh(client) && client.calls == [] && client.getMetadata == getMetadata
    {
      chunkSize := CHUNK_SIZE;
      rootPath := config.rootPath;
      this.safeJoin := safeJoin;
      client := new Client(getMetadata);
    }

    function FullPath(name: string): Result<string>
    {
      ResolvePath(rootPath, name, safeJoin)
    }

    /** `exists(name)`: whether the remote has metadata for the resolved
        path. An `ApiError` from the lookup means false and is never raised;
        any other exception from the lookup, and a name `safe_join` refuses,
        raise. */
    function Exists(name: string): (r: Result<bool>)
      ensures FullPath(name).Err? ==> r == Err(SuspiciousFileOperation)
      ensures FullPath(name).Ok? ==> (r.Ok? <==> !client.getMetadata(FullPath(name).value).OtherErrorRaised?)
      ensures FullPath(name).Ok? && client.getMetadata(FullPath(name).value).OtherErrorRaised? ==> r == Err(ClientError)
      ensures FullPath(name).Ok? && client.getMetadata(FullPath(name).value).ApiErrorRaised? ==> r == Ok(false)
      ensures FullPath(name).Ok? && client.getMetadata(FullPath(name).value).Found? ==>
                r == Ok(client.getMetadata(FullPath(name).value).metadata.truthy)
    {
      match FullPath(name)
      case Err(e) => Err(e)
      case Ok(path) =>
        match client.getMetadata(path)
        case ApiErrorRaised => Ok(false)
        case OtherErrorRaised => Err(ClientError)
        case Found(metadata) => Ok(metadata.truthy)
    }

    /** `listdir(path)`: the names of the folder's sub-directories and of its
        files, each in the order the remote lists them. A refused name and
        any exception from the lookup, `ApiError` included, are raised. */
    method Listdir(path: string) returns (r: Result<Listing>)
      ensures FullPath(path).Err? ==> r == Err(SuspiciousFileOperation)
      ensures FullPath(path).Ok? && client.getMetadata(FullPath(path).value).ApiErrorRaised? ==> r == Err(ApiError)
      ensures FullPath(path).Ok? && client.getMetadata(FullPath(path).value).OtherErrorRaised? ==> r == Err(ClientError)
      ensures FullPath(path).Ok? && client.getMetadata(FullPath(path).value).Found? ==>
                r == Ok(ListingOf(FullPath(path).value, client.getMetadata(FullPath(path).value).metadata.contents))
    {
      var resolved := FullPath(path);
      if resolved.Err? {
        return Err(resolved.error);
      }
      var fullPath := resolved.value;
      var response := client.getMetadata(fullPath);
      if response.ApiErrorRaised? {
        return Err(ApiError);
      } else if response.OtherErrorRaised? {
        return Err(ClientError);
      }
      var contents := response.metadata.contents;
      ghost var listed := Rewritten(fullPath, contents);
      var directories, files := [], [];
      var i := 0;
      while i < |contents|
        invariant i <= |contents|
        invariant directories == Names(listed[..i], true)
        invariant files == Names(listed[..i], false)
      {
        var entry := contents[i];
        entry := entry.(path := RemoveFirst(entry.path, fullPath));
        entry := entry.(path := RemoveFirst(entry.path, "/"));
        assert entry == listed[i];
        NamesExtend(listed, i, true);
        NamesExtend(listed, i, false);
        if entry.isDir {
          directories := directories + [entry.path];
        } else {
          files := files + [entry.path];
        }
        i := i + 1;
      }
      assert listed[..i] == listed;
      return Ok(Listing(directories, files));
    }

    /** `_save(name, content)`: opens the content and sends it to the
        resolved path, in one upload when it fits in a chunk and through an
        upload session otherwise, then closes it and returns `name` as
        given. A refused name raises before anything is sent and leaves the
        content open. */
    method Save(name: string, content: Content) returns (r: Result<string>)
      requires 0 < chunkSize
      modifies content, client
      ensures r.Ok? <==> FullPath(name).Ok?
      ensures r.Ok? ==> r.value == name && content.closed && content.pos == |content.data|
      ensures r.Ok? ==> client.calls == old(client.calls) +
                          SaveTrace(content.data, chunkSize, old(client.nextSession), FullPath(name).value)
      ensures r.Err? ==> r.error == SuspiciousFileOperation && !content.closed
      ensures r.Err? ==> client.calls == old(client.calls)
      ensures r.Err? ==> content.pos == if |content.data| <= chunkSize then |content.data| else 0
    {
      content.Open();
      if content.Size() <= chunkSize {
        var payload := content.ReadAll();
        var dest := FullPath(name);
        if dest.Err? {
          return Err(dest.error);
        }
        client.FilesUpload(payload, dest.value);
      } else {
        var dest := FullPath(name);
        if dest.Err? {
          return Err(dest.error);
        }
        ChunkedUpload(content, dest.value);
      }
      content.Close();
      return Ok(name);
    }

    /** `_chunked_upload(content, dest_path)`: starts a session with the
        first chunk read from the stream, then, while unread bytes remain,
        finishes the session with them when they fit in a chunk and appends
        one whole chunk otherwise, moving the cursor to the stream position
        after each append. */
    method ChunkedUpload(content: Content, destPath: string)
      requires 0 < chunkSize && content.Valid() && !content.closed
      modifies content`pos, client
      ensures content.pos == |content.data|
      ensures client.nextSession == old(client.nextSession) + 1
      ensures client.calls == old(client.calls) +
                ChunkedTrace(content.data, old(content.pos), chunkSize, old(client.nextSession), destPath)
    {
      ghost var d, p0, id := content.data, content.pos, client.nextSession;
      ghost var expected := old(client.calls) + ChunkedTrace(d, p0, chunkSize, id, destPath);
      var first := content.Read(chunkSize);
      var sessionId := client.UploadSessionStart(first);
      var cursor := new UploadSessionCursor(sessionId, content.Tell());
      var commit := CommitInfo(destPath);
      ChunkedTraceStarts(old(client.calls), d, p0, chunkSize, id, destPath);
      while content.Tell() < content.Size()
        invariant content.data == d && content.Valid() && !content.closed
        invariant content.pos < |d| ==> cursor.offset == content.pos
        invariant cursor.sessionId == id && client.nextSession == id + 1
        invariant client.calls + SessionLoop(d, content.pos, chunkSize, id, destPath) == expected
        decreases |d| - content.pos
      {
        ghost var p, before := content.pos, client.calls;
        if content.Size() - content.Tell() <= chunkSize {
          var chunk := content.Read(chunkSize);
          client.UploadSessionFinish(chunk, cursor, commit);
          assert chunk == d[p..];
          SessionLoopFinishes(before, expected, d, p, chunkSize, id, destPath);
        } else {
          var chunk := content.Read(chunkSize);
          client.UploadSessionAppend(chunk, cursor);
          cursor.offset := content.Tell();
          assert chunk == d[p..p + chunkSize];
          SessionLoopAppends(before, expected, d, p, chunkSize, id, destPath);
        }
      }
    }
  }
}
