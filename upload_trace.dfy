/** The calls `DropBoxStorage._save` and `_chunked_upload` make to the
    client, as functions of the content, the chunk size, the session id the
    remote hands out and the destination path; and what those calls are
    proved to amount to. */
module UploadTrace {
  import opened Text
  import opened DjangoFile
  import opened DropboxApi

  /** `DropBoxStorage.CHUNK_SIZE`: 4 MiB. */
  const CHUNK_SIZE: nat := 4 * 1024 * 1024

  /** The calls of the `while` loop of `_chunked_upload` once the stream
      stands at `p`: whole chunks are appended while more than one chunk
      remains, then the rest finishes the session. The cursor offset of each
      call is the stream position before its read. */
  function SessionLoop(d: seq<byte>, p: nat, c: nat, id: nat, dest: string): seq<Call>
    requires 0 < c && p <= |d|
    decreases |d| - p
  {
    if p == |d| then []
    else if |d| - p <= c then [SessionFinish(d[p..], id, p, dest)]
    else [SessionAppend(d[p..p + c], id, p)] + SessionLoop(d, p + c, c, id, dest)
  }

  /** The session start, after which the loop runs from the end of the
      first read. */
  lemma ChunkedTraceStarts(sent: seq<Call>, d: seq<byte>, p: nat, c: nat, id: nat, dest: string)
    requires 0 < c && p <= |d|
    ensures sent + ChunkedTrace(d, p, c, id, dest)
            == (sent + [SessionStart(d[p..Min(p + c, |d|)], id)]) + SessionLoop(d, Min(p + c, |d|), c, id, dest)
  {
  }

  /** One turn of the loop with at most one chunk left: the finish, after
      which no call remains. */
  lemma SessionLoopFinishes(sent: seq<Call>, expected: seq<Call>,
                            d: seq<byte>, p: nat, c: nat, id: nat, dest: string)
    requires 0 < c && p < |d| && |d| - p <= c
    requires sent + SessionLoop(d, p, c, id, dest) == expected
    ensures (sent + [SessionFinish(d[p..], id, p, dest)]) + SessionLoop(d, |d|, c, id, dest) == expected
  {
  }

  /** One turn of the loop with more than one chunk left: an append of the
      next chunk at offset `p`, after which the loop goes on from `p + c`. */
  lemma SessionLoopAppends(sent: seq<Call>, expected: seq<Call>,
                           d: seq<byte>, p: nat, c: nat, id: nat, dest: string)
    requires 0 < c && p + c < |d|
    requires sent + SessionLoop(d, p, c, id, dest) == expected
    ensures (sent + [SessionAppend(d[p..p + c], id, p)]) + SessionLoop(d, p + c, c, id, dest) == expected
  {
    assert SessionLoop(d, p, c, id, dest)
           == [SessionAppend(d[p..p + c], id, p)] + SessionLoop(d, p + c, c, id, dest);
  }

  /** All calls of `_chunked_upload` on a stream standing at `p`: the session
      is started with the first read, then the loop runs. */
  function ChunkedTrace(d: seq<byte>, p: nat, c: nat, id: nat, dest: string): seq<Call>
    requires 0 < c && p <= |d|
  {
    [SessionStart(d[p..Min(p + c, |d|)], id)] + SessionLoop(d, Min(p + c, |d|), c, id, dest)
  }

  /** All calls of `_save` once `content.open()` has put the stream at 0. */
  function SaveTrace(d: seq<byte>, c: nat, id: nat, dest: string): seq<Call>
    requires 0 < c
  {
    if |d| <= c then [Upload(d, dest)] else ChunkedTrace(d, 0, c, id, dest)
  }

  /** The payloads of `calls` concatenated in call order. */
  function Sent(calls: seq<Call>): seq<byte>
  {
    if calls == [] then [] else calls[0].payload + Sent(calls[1..])
  }

  lemma {:induction false} SentAppend(a: seq<Call>, b: seq<Call>)
    ensures Sent(a + b) == Sent(a) + Sent(b)
  {
    if a == [] {
      assert a + b == b;
    } else {
      assert (a + b)[1..] == a[1..] + b;
      SentAppend(a[1..], b);
    }
  }

  /** The loop sends exactly the bytes from `p` to the end, each call at most
      one chunk. */
  lemma {:induction false} SessionLoopSendsRest(d: seq<byte>, p: nat, c: nat, id: nat, dest: string)
    requires 0 < c && p <= |d|
    ensures Sent(SessionLoop(d, p, c, id, dest)) == d[p..]
    ensures forall k :: 0 <= k < |SessionLoop(d, p, c, id, dest)| ==>
              |SessionLoop(d, p, c, id, dest)[k].payload| <= c
    decreases |d| - p
  {
    var t := SessionLoop(d, p, c, id, dest);
    if p == |d| {
    } else if |d| - p <= c {
      assert Sent(t) == d[p..] + Sent([]);
    } else {
      var rest := SessionLoop(d, p + c, c, id, dest);
      SessionLoopSendsRest(d, p + c, c, id, dest);
      assert t == [SessionAppend(d[p..p + c], id, p)] + rest;
      assert d[p..] == d[p..p + c] + d[p + c..];
      forall k | 0 <= k < |t|
        ensures |t[k].payload| <= c
      {
        if k == 0 {
          assert |t[0].payload| == |d[p..p + c]| == c;
        } else {
          assert t[k] == rest[k - 1];
        }
      }
    }
  }

  /** Shape of the loop's calls: nothing when the stream is exhausted;
      otherwise appends of exactly one chunk each, then one finish to `dest`,
      after which nothing follows; every call carries the session id. */
  lemma {:induction false} SessionLoopShape(d: seq<byte>, p: nat, c: nat, id: nat, dest: string)
    requires 0 < c && p <= |d|
    ensures p == |d| <==> SessionLoop(d, p, c, id, dest) == []
    ensures forall k :: 0 <= k < |SessionLoop(d, p, c, id, dest)| ==>
              !SessionLoop(d, p, c, id, dest)[k].Upload? &&
              !SessionLoop(d, p, c, id, dest)[k].SessionStart? &&
              SessionLoop(d, p, c, id, dest)[k].sessionId == id
    ensures forall k :: 0 <= k < |SessionLoop(d, p, c, id, dest)| ==>
              (SessionLoop(d, p, c, id, dest)[k].SessionFinish? <==> k == |SessionLoop(d, p, c, id, dest)| - 1)
    ensures forall k :: 0 <= k < |SessionLoop(d, p, c, id, dest)| - 1 ==>
              |SessionLoop(d, p, c, id, dest)[k].payload| == c
    ensures p < |d| ==> SessionLoop(d, p, c, id, dest)[|SessionLoop(d, p, c, id, dest)| - 1].path == dest
    decreases |d| - p
  {
    var t := SessionLoop(d, p, c, id, dest);
    if p < |d| && |d| - p > c {
      var rest := SessionLoop(d, p + c, c, id, dest);
      SessionLoopShape(d, p + c, c, id, dest);
      assert t[1..] == rest;
      forall k | 0 < k < |t|
        ensures t[k] == rest[k - 1]
      {
      }
    }
  }

  /** The cursor offset of every loop call equals the number of bytes read
      from the stream before that call. */
  lemma {:induction false} SessionLoopOffsets(d: seq<byte>, p: nat, c: nat, id: nat, dest: string)
    requires 0 < c && p <= |d|
    ensures forall k :: 0 <= k < |SessionLoop(d, p, c, id, dest)| ==>
              !SessionLoop(d, p, c, id, dest)[k].Upload? && !SessionLoop(d, p, c, id, dest)[k].SessionStart? &&
              SessionLoop(d, p, c, id, dest)[k].offset == p + |Sent(SessionLoop(d, p, c, id, dest)[..k])|
    decreases |d| - p
  {
    var t := SessionLoop(d, p, c, id, dest);
    if p < |d| && |d| - p > c {
      var rest := SessionLoop(d, p + c, c, id, dest);
      SessionLoopOffsets(d, p + c, c, id, dest);
      assert t[1..] == rest;
      forall k | 0 < k < |t|
        ensures t[k].offset == p + |Sent(t[..k])|
      {
        assert t[k] == rest[k - 1];
        assert t[..k] == [t[0]] + rest[..k - 1];
        SentAppend([t[0]], rest[..k - 1]);
      }
    }
  }

  /** The number of calls in the loop is the number of chunks the rest of the
      stream spans: ceiling of `(|d| - p) / c`. */
  lemma {:induction false} SessionLoopLength(d: seq<byte>, p: nat, c: nat, id: nat, dest: string)
    requires 0 < c && p <= |d|
    ensures (|SessionLoop(d, p, c, id, dest)| - 1) * c < |d| - p <= |SessionLoop(d, p, c, id, dest)| * c
    decreases |d| - p
  {
    var t := SessionLoop(d, p, c, id, dest);
    if p < |d| && |d| - p > c {
      SessionLoopLength(d, p + c, c, id, dest);
      var n := |SessionLoop(d, p + c, c, id, dest)|;
      assert |t| == n + 1;
      assert |t| * c == n * c + c;
      assert (|t| - 1) * c == n * c;
      assert (n - 1) * c == n * c - c;
    }
  }

  /** For content longer than one chunk (what `_save` hands over) the
      session is started exactly once, with the first chunk, as the first
      call; finished exactly once, to `dest`, as the last call; and every call
      between is an append of exactly one chunk. Every call carries the
      session id; there are no single-shot uploads. */
  lemma ChunkedTraceShape(d: seq<byte>, p: nat, c: nat, id: nat, dest: string)
    requires 0 < c && p + c < |d|
    ensures |ChunkedTrace(d, p, c, id, dest)| >= 2
    ensures ChunkedTrace(d, p, c, id, dest)[0] == SessionStart(d[p..p + c], id)
    ensures forall k :: 0 <= k < |ChunkedTrace(d, p, c, id, dest)| ==>
              !ChunkedTrace(d, p, c, id, dest)[k].Upload? &&
              ChunkedTrace(d, p, c, id, dest)[k].sessionId == id &&
              (ChunkedTrace(d, p, c, id, dest)[k].SessionStart? <==> k == 0) &&
              (ChunkedTrace(d, p, c, id, dest)[k].SessionFinish? <==> k == |ChunkedTrace(d, p, c, id, dest)| - 1) &&
              (0 < k < |ChunkedTrace(d, p, c, id, dest)| - 1 ==>
                 ChunkedTrace(d, p, c, id, dest)[k].SessionAppend? &&
                 |ChunkedTrace(d, p, c, id, dest)[k].payload| == c)
    ensures ChunkedTrace(d, p, c, id, dest)[|ChunkedTrace(d, p, c, id, dest)| - 1].path == dest
  {
    var t := ChunkedTrace(d, p, c, id, dest);
    var loop := SessionLoop(d, p + c, c, id, dest);
    SessionLoopShape(d, p + c, c, id, dest);
    assert t == [SessionStart(d[p..p + c], id)] + loop;
    forall k | 0 < k < |t|
      ensures t[k] == loop[k - 1]
    {
    }
  }

  /** Whatever remains of the stream, `_chunked_upload` starts its session
      exactly once, as its first call, with the first read of at most one
      chunk; every later call belongs to that session and is neither a start
      nor a single-shot upload. The session is finished (by the last call)
      exactly when more than one chunk remained. */
  lemma ChunkedTraceStartsOnce(d: seq<byte>, p: nat, c: nat, id: nat, dest: string)
    requires 0 < c && p <= |d|
    ensures ChunkedTrace(d, p, c, id, dest)[0] == SessionStart(d[p..Min(p + c, |d|)], id)
    ensures forall k :: 1 <= k < |ChunkedTrace(d, p, c, id, dest)| ==>
              !ChunkedTrace(d, p, c, id, dest)[k].SessionStart? &&
              !ChunkedTrace(d, p, c, id, dest)[k].Upload? &&
              ChunkedTrace(d, p, c, id, dest)[k].sessionId == id
    ensures ChunkedTrace(d, p, c, id, dest)[|ChunkedTrace(d, p, c, id, dest)| - 1].SessionFinish? <==> p + c < |d|
  {
    var t := ChunkedTrace(d, p, c, id, dest);
    var q := Min(p + c, |d|);
    var loop := SessionLoop(d, q, c, id, dest);
    SessionLoopShape(d, q, c, id, dest);
    assert t == [SessionStart(d[p..q], id)] + loop;
    forall k | 1 <= k < |t|
      ensures t[k] == loop[k - 1]
    {
    }
  }

  /** The payloads of all calls of `_chunked_upload`, in call order, are
      exactly the bytes from the stream position to the end, none longer than
      one chunk; every offset is the number of bytes read from the stream
      before the call. */
  lemma ChunkedTraceSendsRest(d: seq<byte>, p: nat, c: nat, id: nat, dest: string)
    requires 0 < c && p <= |d|
    ensures Sent(ChunkedTrace(d, p, c, id, dest)) == d[p..]
    ensures forall k :: 0 <= k < |ChunkedTrace(d, p, c, id, dest)| ==>
              |ChunkedTrace(d, p, c, id, dest)[k].payload| <= c
    ensures forall k :: 1 <= k < |ChunkedTrace(d, p, c, id, dest)| ==>
              !ChunkedTrace(d, p, c, id, dest)[k].Upload? && !ChunkedTrace(d, p, c, id, dest)[k].SessionStart? &&
              ChunkedTrace(d, p, c, id, dest)[k].offset == p + |Sent(ChunkedTrace(d, p, c, id, dest)[..k])|
  {
    var t := ChunkedTrace(d, p, c, id, dest);
    var q := Min(p + c, |d|);
    var loop := SessionLoop(d, q, c, id, dest);
    SessionLoopSendsRest(d, q, c, id, dest);
    SessionLoopOffsets(d, q, c, id, dest);
    assert t == [SessionStart(d[p..q], id)] + loop;
    SentAppend([SessionStart(d[p..q], id)], loop);
    assert Sent([SessionStart(d[p..q], id)]) == d[p..q] + Sent([]);
    assert d[p..] == d[p..q] + d[q..];
    forall k | 1 <= k < |t|
      ensures t[k] == loop[k - 1]
      ensures t[k].offset == p + |Sent(t[..k])|
    {
      assert t[..k] == [t[0]] + loop[..k - 1];
      SentAppend([t[0]], loop[..k - 1]);
      assert Sent([t[0]]) == t[0].payload + Sent([]);
    }
  }

  /** Content of at most one chunk goes out as one whole-payload upload to
      `dest` and nothing else; longer content goes out through upload
      session calls only. Either way the payloads, in order, are the whole
      content. */
  lemma SaveTraceSendsContent(d: seq<byte>, c: nat, id: nat, dest: string)
    requires 0 < c
    ensures |d| <= c ==> SaveTrace(d, c, id, dest) == [Upload(d, dest)]
    ensures |d| > c ==> forall k :: 0 <= k < |SaveTrace(d, c, id, dest)| ==> !SaveTrace(d, c, id, dest)[k].Upload?
    ensures Sent(SaveTrace(d, c, id, dest)) == d
  {
    if |d| <= c {
      assert Sent([Upload(d, dest)]) == d + Sent([]);
    } else {
      ChunkedTraceShape(d, 0, c, id, dest);
      ChunkedTraceSendsRest(d, 0, c, id, dest);
    }
  }

  /** Replayed against a consistent remote whose session `id` holds the bytes
      before `p`, the loop commits the whole content to `dest`, closes the
      session and touches no other file. */
  lemma {:induction false} SessionLoopCommits(r: Remote, d: seq<byte>, p: nat, c: nat, id: nat, dest: string)
    requires 0 < c && p < |d|
    requires id in r.sessions && r.sessions[id] == d[..p]
    ensures Replay(r, SessionLoop(d, p, c, id, dest)) == Some(Remote(r.files[dest := d], r.sessions - {id}))
    decreases |d| - p
  {
    var t := SessionLoop(d, p, c, id, dest);
    if |d| - p <= c {
      assert d[..p] + d[p..] == d;
      assert t[1..] == [];
    } else {
      var r1 := r.(sessions := r.sessions[id := d[..p] + d[p..p + c]]);
      assert d[..p] + d[p..p + c] == d[..p + c];
      assert Apply(r, t[0]) == Some(r1);
      assert t[1..] == SessionLoop(d, p + c, c, id, dest);
      SessionLoopCommits(r1, d, p + c, c, id, dest);
      assert r1.sessions - {id} == r.sessions - {id};
    }
  }

  /** Round trip: replaying what `_save` sends against a consistent remote
      on which the session id is unused stores exactly the content at `dest`
      and leaves every other file and every other session as it was. */
  lemma SaveRoundTrip(r: Remote, d: seq<byte>, c: nat, id: nat, dest: string)
    requires 0 < c && id !in r.sessions
    ensures Replay(r, SaveTrace(d, c, id, dest)) == Some(Remote(r.files[dest := d], r.sessions))
  {
    var t := SaveTrace(d, c, id, dest);
    if |d| <= c {
      assert t[1..] == [];
    } else {
      var r1 := r.(sessions := r.sessions[id := d[..c]]);
      assert d[0..Min(c, |d|)] == d[..c];
      assert Apply(r, t[0]) == Some(r1);
      assert t[1..] == SessionLoop(d, c, c, id, dest);
      SessionLoopCommits(r1, d, c, c, id, dest);
      assert r1.sessions - {id} == r.sessions;
    }
  }

  /** As written, `_chunked_upload` started on a stream with at most one
      chunk left sends it all with the session start and never finishes the
      session; `_save` never calls it so. */
  lemma ChunkedTraceShortStream(d: seq<byte>, p: nat, c: nat, id: nat, dest: string)
    requires 0 < c && p <= |d| && |d| - p <= c
    ensures ChunkedTrace(d, p, c, id, dest) == [SessionStart(d[p..], id)]
  {
    assert Min(p + c, |d|) == |d|;
    assert d[p..|d|] == d[p..];
    assert ChunkedTrace(d, p, c, id, dest) == [SessionStart(d[p..], id)] + SessionLoop(d, |d|, c, id, dest);
  }
}
