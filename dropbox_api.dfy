/** The part of the Dropbox SDK the storage backend talks to. The client is a
    recorder: every upload call it receives is appended to a ghost trace, and
    metadata lookups are answered by a function fixed at construction. A
    consistent remote is given as `Apply`/`Replay`, so that what a trace of
    upload calls does to the remote files can be stated. */
module DropboxApi {
  import opened Text
  import opened DjangoFile

  /** One entry of a folder listing: `entry['path']`, `entry['is_dir']`. */
  datatype Entry = Entry(path: string, isDir: bool)

  /** A metadata response. `truthy` stands for Python's `bool(metadata)`;
      `contents` is `metadata['contents']`. */
  datatype Metadata = Metadata(truthy: bool, contents: seq<Entry>)

  /** What `files_get_metadata` does for a path: answer, raise `ApiError`, or
      raise some other exception. */
  datatype MetadataResponse = Found(metadata: Metadata) | ApiErrorRaised | OtherErrorRaised

  /** `CommitInfo(path=...)`. */
  datatype CommitInfo = CommitInfo(path: string)

  /** The upload calls, with the cursor as it stood when the call was made. */
  datatype Call =
    | Upload(payload: seq<byte>, path: string)
    | SessionStart(payload: seq<byte>, sessionId: nat)
    | SessionAppend(payload: seq<byte>, sessionId: nat, offset: nat)
    | SessionFinish(payload: seq<byte>, sessionId: nat, offset: nat, path: string)

  /** `UploadSessionCursor(session_id=..., offset=...)`; the backend moves
      `offset` forward in place. */
  class UploadSessionCursor {
    const sessionId: nat
    var offset: nat

    constructor (sessionId: nat, offset: nat)
      ensures this.sessionId == sessionId && this.offset == offset
    {
      this.sessionId := sessionId;
      this.offset := offset;
    }
  }

  class Client {
    /** Every upload call received so far, oldest first. */
    ghost var calls: seq<Call>
    /** The id the next upload session will get. */
    var nextSession: nat
    /** `files_get_metadata`, as the remote answers it. */
    const getMetadata: string -> MetadataResponse

    constructor (getMetadata: string -> MetadataResponse)
      ensures calls == [] && this.getMetadata == getMetadata
    {
      calls := [];
      nextSession := 0;
      this.getMetadata := getMetadata;
    }

    /** `files_upload(payload, path)`. */
    method FilesUpload(payload: seq<byte>, path: string)
      modifies this`calls
      ensures calls == old(calls) + [Upload(payload, path)]
    {
      calls := calls + [Upload(payload, path)];
    }

    /** `files_upload_session_start(payload)`, returning the session id. */
    method UploadSessionStart(payload: seq<byte>) returns (sessionId: nat)
      modifies this
      ensures sessionId == old(nextSession) && nextSession == old(nextSession) + 1
      ensures calls == old(calls) + [SessionStart(payload, sessionId)]
    {
      sessionId := nextSession;
      nextSession := nextSession + 1;
      calls := calls + [SessionStart(payload, sessionId)];
    }

    /** `files_upload_session_append_v2(payload, cursor)`. */
    method UploadSessionAppend(payload: seq<byte>, cursor: UploadSessionCursor)
      modifies this`calls
      ensures calls == old(calls) + [SessionAppend(payload, cursor.sessionId, cursor.offset)]
    {
      calls := calls + [SessionAppend(payload, cursor.sessionId, cursor.offset)];
    }

    /** `files_upload_session_finish(payload, cursor, commit)`. */
    method UploadSessionFinish(payload: seq<byte>, cursor: UploadSessionCursor, commit: CommitInfo)
      modifies this`calls
      ensures calls == old(calls) + [SessionFinish(payload, cursor.sessionId, cursor.offset, commit.path)]
    {
      calls := calls + [SessionFinish(payload, cursor.sessionId, cursor.offset, commit.path)];
    }
  }

  /** A consistent remote: the stored files and the bytes received so far by
      each open upload session. */
  datatype Remote = Remote(files: map<string, seq<byte>>, sessions: map<nat, seq<byte>>)

  /** The effect of one call on the remote, or None when the remote rejects
      it: a start on an id in use, or an append or finish on an unknown
      session or at an offset other than the number of bytes it holds. */
  function Apply(r: Remote, call: Call): Option<Remote>
  {
    match call
    case Upload(payload, path) =>
      Some(r.(files := r.files[path := payload]))
    case SessionStart(payload, id) =>
      if id in r.sessions then None
      else Some(r.(sessions := r.sessions[id := payload]))
    case SessionAppend(payload, id, offset) =>
      if id !in r.sessions || offset != |r.sessions[id]| then None
      else Some(r.(sessions := r.sessions[id := r.sessions[id] + payload]))
    case SessionFinish(payload, id, offset, path) =>
      if id !in r.sessions || offset != |r.sessions[id]| then None
      else Some(Remote(r.files[path := r.sessions[id] + payload], r.sessions - {id}))
  }

  /** The calls applied in order; None as soon as one is rejected. */
  function Replay(r: Remote, calls: seq<Call>): Option<Remote>
    decreases |calls|
  {
    if calls == [] then Some(r)
    else match Apply(r, calls[0])
      case None => None
      case Some(r1) => Replay(r1, calls[1..])
  }
}
