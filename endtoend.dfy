/** The save protocol from end to end: the worker splits the remuxed file into chunks and
    streams them between a start and an end message (offscreen.js:179-216); the controller
    collects them in its session table (background.js:183-249). Replaying the worker's
    stream through the controller's session steps rebuilds the file byte for byte, and
    the end message hands exactly that file to the downloads API. */
module EndToEnd {
  import opened Wrappers
  import opened Protocol
  import opened Chunks
  import opened Offscreen
  import opened Background

  /** The session table after the controller handles `msgs` in order. */
  function Replay(sessions: map<JobId, Session>, msgs: seq<Msg>): map<JobId, Session> {
    if |msgs| == 0 then sessions else SessionStep(Replay(sessions, msgs[..|msgs| - 1]), msgs[|msgs| - 1])
  }

  /** Handling two runs of messages one after the other is handling their
      concatenation. */
  lemma {:induction false} ReplayAppend(sessions: map<JobId, Session>, a: seq<Msg>, b: seq<Msg>)
    ensures Replay(sessions, a + b) == Replay(Replay(sessions, a), b)
    decreases |b|
  {
    if |b| == 0 {
      assert a + b == a;
    } else {
      var c := b[..|b| - 1];
      assert (a + b)[..|a + b| - 1] == a + c;
      assert (a + b)[|a + b| - 1] == b[|b| - 1];
      ReplayAppend(sessions, a, c);
    }
  }

  /** What the session of job `jobId` holds after the first `k` chunks of `data`. */
  predicate CollectedChunks(sessions: map<JobId, Session>, jobId: JobId, filename: string, data: seq<byte>, k: nat)
    requires k <= ChunkCount(|data|)
  {
    && jobId in sessions
    && sessions[jobId].filename == filename && sessions[jobId].mime == OUTPUT_MIME
    && sessions[jobId].chunks == Chunks.Chunks(data)[..k]
    && sessions[jobId].bytes == |Flatten(sessions[jobId].chunks)|
  }

  /** The two messages of one chunk add that chunk to the session; the report between
      chunks leaves the table alone. */
  lemma {:induction false} ReplayChunk(sessions: map<JobId, Session>, jobId: JobId, filename: string,
                                       data: seq<byte>, k: nat)
    requires k < ChunkCount(|data|) && CollectedChunks(sessions, jobId, filename, data, k)
    ensures CollectedChunks(Replay(sessions, ChunkMessages(jobId, data, k)), jobId, filename, data, k + 1)
  {
    var msgs := ChunkMessages(jobId, data, k);
    var c := Chunk(data, k);
    assert msgs[..1] == [JobSaveChunk(jobId, |data|, c)];
    assert msgs[..1][..0] == [];
    var after := SessionStep(sessions, JobSaveChunk(jobId, |data|, c));
    assert Replay(sessions, msgs[..1]) == after;
    assert msgs[..2] == msgs;
    assert Replay(sessions, msgs) == after;
    var s := sessions[jobId];
    FlattenSnoc(s.chunks, c);
    assert Chunks.Chunks(data)[..k + 1] == Chunks.Chunks(data)[..k] + [c];
  }

  /** After the start message and the messages of the first `k` chunks, the session of
      the job holds exactly those chunks, in order, under the file's name. */
  lemma {:induction false} ReplaySaveMessages(sessions: map<JobId, Session>, jobId: JobId, filename: string,
                                              data: seq<byte>, k: nat)
    requires k <= ChunkCount(|data|)
    ensures CollectedChunks(Replay(sessions, [JobSaveStart(jobId, filename, OUTPUT_MIME)] + SaveMessages(jobId, data, k)),
                            jobId, filename, data, k)
  {
    var start := [JobSaveStart(jobId, filename, OUTPUT_MIME)];
    if k == 0 {
      assert start + SaveMessages(jobId, data, 0) == start;
      assert start[..0] == [];
      assert Chunks.Chunks(data)[..0] == [];
    } else {
      var m := k - 1;
      ReplaySaveMessages(sessions, jobId, filename, data, m);
      var before := start + SaveMessages(jobId, data, m);
      assert start + SaveMessages(jobId, data, k) == before + ChunkMessages(jobId, data, m);
      ReplayAppend(sessions, before, ChunkMessages(jobId, data, m));
      ReplayChunk(Replay(sessions, before), jobId, filename, data, m);
    }
  }

  /** The round trip: replaying the worker's save stream up to its end message leaves a
      session whose chunks join into the saved data, whose byte count is its length and
      whose name and type are the worker's; the end message then downloads exactly that
      file and closes the session. */
  lemma {:induction false} SaveRoundTrip(sessions: map<JobId, Session>, jobId: JobId, data: seq<byte>, filename: string)
    ensures var msgs := SaveStream(jobId, data, filename);
      var s := Replay(sessions, msgs[..|msgs| - 1]);
      && jobId in s
      && Flatten(s[jobId].chunks) == data && s[jobId].bytes == |data|
      && Download(s[jobId].filename, s[jobId].mime, Flatten(s[jobId].chunks)) == Download(filename, OUTPUT_MIME, data)
      && msgs[|msgs| - 1] == JobSaveEnd(jobId)
      && jobId !in Replay(sessions, msgs)
  {
    var msgs := SaveStream(jobId, data, filename);
    var n := ChunkCount(|data|);
    var body := [JobSaveStart(jobId, filename, OUTPUT_MIME)] + SaveMessages(jobId, data, n);
    assert msgs == body + [JobSaveEnd(jobId)];
    assert msgs[..|msgs| - 1] == body;
    ReplaySaveMessages(sessions, jobId, filename, data, n);
    assert Chunks.Chunks(data)[..n] == Chunks.Chunks(data);
    FlattenChunks(data);
  }
}
