/** The worker of the extension (offscreen.js): the cancel and watchdog flags, the progress
    reports, and the conversion pipeline that resolves the playlist, downloads the segments
    into the engine's file system, remuxes them and streams the output back to the
    controller in chunks. The network, the remux engine and the clock are inputs; the
    runtime message channel is the `outbox` the worker appends to. */
module Offscreen {
  import opened Wrappers
  import opened Protocol
  import opened Text
  import opened Progress
  import opened Playlist
  import opened Segments
  import opened Chunks

  // ---------------------------------------------------------------- constants

  /** A job is canceled when no progress was reported for this many milliseconds. */
  const WATCHDOG_TIMEOUT := 60000

  const LOCAL_PLAYLIST := "local.m3u8"
  const OUTPUT_FILE := "out.m4a"
  const OUTPUT_MIME := "audio/mp4"

  // Log lines and error messages, as the worker writes them.
  const PARSING_LOG := "m3u8 파싱…"
  const DOWNLOAD_LOG := "다운로드 "
  const REMUX_START_LOG := "무손실 리먹스…"
  const REMUX_LOG := "리먹스 진행…"
  const SAVING_LOG := "저장 중 "
  const NO_SEGMENTS_ERROR := "세그먼트를 찾지 못했습니다."
  const CANCELED_ERROR := "사용자 취소"
  const SEGMENT_ERROR := "세그먼트 실패: "
  /** The rejection of a fetch whose controller was aborted (its text comes from the browser). */
  const ABORT_ERROR := "the request was aborted"
  /** The rejection of a remux run whose engine was exited (its text comes from the engine). */
  const ENGINE_EXITED_ERROR := "the engine was exited"
  /** The failure of a file-system call on an engine that never finished loading. */
  const ENGINE_NOT_READY_ERROR := "the engine is not ready"

  /** The markers that make an engine log line worth forwarding. */
  const LOG_MARKERS := ["Opening", "frame=", "size=", "time=", "bitrate=", "speed="]

  // ---------------------------------------------------------------- inputs

  /** The remux engine: not created yet (or exited), created but not loaded, or loaded. */
  datatype Engine = Absent | Created | Loaded

  /** A file in the engine's in-memory file system. */
  datatype FileData = Bytes(bytes: seq<byte>) | Text(text: string)

  /** An HTTP response: its status code and its body. */
  datatype Response = Response(status: nat, body: seq<byte>)

  /** `res.ok`: a status in the 200 range. */
  predicate IsOkStatus(status: nat) {
    200 <= status <= 299
  }

  /** A segment fetch that completed with a successful status. */
  predicate Fetched(r: Result<Response>) {
    r.Ok? && IsOkStatus(r.value.status)
  }

  /** The body a segment fetch delivered (empty when it failed). */
  function BodyOf(r: Result<Response>): seq<byte> {
    if r.Ok? then r.value.body else []
  }

  /** What the outside world answers during one conversion: the text behind each playlist
      URL, the URL constructor, the outcome of loading the engine (`None` when it loads),
      the response behind each segment URL, the outcome of the remux run (the bytes of
      `out.m4a` when it succeeds) and the name the output is offered under. */
  datatype Env = Env(
    fetchText: string -> Result<string>,
    urls: UrlApi,
    loadError: Option<string>,
    fetchSegment: string -> Result<Response>,
    remux: Result<seq<byte>>,
    filename: string)

  /** Where a cancel request is handled while a conversion waits: while the playlist is
      fetched, while segment `index` is fetched, while the engine runs, or in the pause
      after chunk `index` was sent. */
  datatype Pause = DuringResolve | DuringSegment(index: nat) | DuringRemux | AfterChunk(index: nat)

  // ---------------------------------------------------------------- the flag machine

  /** The module-level variables that decide cancellation. */
  datatype FlagState = FlagState(
    cancelFlag: bool,
    currentJobId: Option<JobId>,
    canceledSent: bool,
    ffmpegRunning: bool,
    engine: Engine)

  /** The `JOB_CANCELED` message a cancel sends: one when a job is current and none was
      sent for the conversion yet, otherwise nothing. */
  function CancelMessages(f: FlagState): (r: seq<Msg>)
    ensures |r| <= 1
    ensures |r| == 1 <==> f.currentJobId.Some? && !f.canceledSent
    ensures |r| == 1 ==> r[0] == JobCanceled(f.currentJobId.value)
  {
    if f.currentJobId.Some? && !f.canceledSent then [JobCanceled(f.currentJobId.value)] else []
  }

  /** The flags after `handleCancel`: the cancel flag is raised, a running engine is
      exited, the cancel is recorded as sent when one was sent, and no job is current. A
      second cancel therefore sends nothing. */
  function CancelStep(f: FlagState): (r: FlagState)
    ensures r.cancelFlag && r.currentJobId.None? && r.ffmpegRunning == f.ffmpegRunning
    ensures r.canceledSent <==> f.canceledSent || |CancelMessages(f)| == 1
    ensures f.ffmpegRunning ==> r.engine == Absent
    ensures !f.ffmpegRunning ==> r.engine == f.engine
    ensures CancelMessages(r) == []
  {
    f.(cancelFlag := true,
       currentJobId := None,
       canceledSent := f.canceledSent || f.currentJobId.Some?,
       engine := if f.ffmpegRunning && f.engine != Absent then Absent else f.engine)
  }

  /** The messages of `k` cancels in a row, each handled on the flags the previous one
      left. */
  function CancelTrace(f: FlagState, k: nat): seq<Msg>
    decreases k
  {
    if k == 0 then [] else CancelMessages(f) + CancelTrace(CancelStep(f), k - 1)
  }

  /** However many cancels arrive (from the user and the watchdog alike), at most one
      `JOB_CANCELED` is sent, and it is the first cancel's. */
  lemma {:induction false} RepeatedCancels(f: FlagState, k: nat)
    ensures CancelTrace(f, k) == (if k == 0 then [] else CancelMessages(f))
    decreases k
  {
    if k > 1 {
      var g := CancelStep(f);
      RepeatedCancels(g, k - 1);
      assert CancelTrace(g, k - 1) == CancelMessages(g);
    }
  }

  /** The watchdog's test: a job is current and nothing was reported for more than a
      minute. */
  predicate WatchdogFires(f: FlagState, lastTick: int, now: int) {
    f.currentJobId.Some? && now - lastTick > WATCHDOG_TIMEOUT
  }

  // ---------------------------------------------------------------- reports

  /** `progress()` forwards only a percentage between 0 and 100. */
  lemma {:induction false} ReportedPercent(p: real)
    requires 0.0 <= p <= 100.0
    ensures Clamp(p, 0.0, 100.0) == p
  {
  }

  function DownloadLog(i: nat, n: nat): string {
    DOWNLOAD_LOG + NatToString(i) + "/" + NatToString(n)
  }

  /** The report after segment `i` of `n` was downloaded. */
  function DownloadReport(jobId: JobId, i: nat, n: nat): Msg
    requires 0 < n
  {
    JobProgress(Some(jobId), DownloadPercent(i, n) as real, DownloadLog(i, n))
  }

  /** The reports of the first `k` of `n` downloaded segments: one for every tenth. */
  function DownloadReports(jobId: JobId, n: nat, k: nat): seq<Msg>
    requires 0 < n
  {
    if k == 0 then [] else DownloadReports(jobId, n, k - 1) + DownloadReportFor(jobId, k - 1, n)
  }

  /** What downloading segment `i` of `n` reports: every tenth segment is reported. */
  function DownloadReportFor(jobId: JobId, i: nat, n: nat): seq<Msg>
    requires 0 < n
  {
    if i % 10 == 0 then [DownloadReport(jobId, i, n)] else []
  }

  /** Downloading `k` segments reports after segments 0, 10, 20, ... only. */
  lemma {:induction false} DownloadReportsSpec(jobId: JobId, n: nat, k: nat)
    requires 0 < n
    ensures var r := DownloadReports(jobId, n, k);
      && |r| == (k + 9) / 10
      && forall j :: 0 <= j < |r| ==> r[j] == DownloadReport(jobId, 10 * j, n)
  {
    if k > 0 {
      DownloadReportsSpec(jobId, n, k - 1);
    }
  }

  /** The download percentages reported lie between 0 and 80 and never decrease. */
  lemma {:induction false} DownloadReportsRise(jobId: JobId, n: nat, k: nat, j1: nat, j2: nat)
    requires 0 < n && j1 <= j2 < |DownloadReports(jobId, n, k)|
    ensures var r := DownloadReports(jobId, n, k);
      && r[j1].JobProgress? && r[j2].JobProgress?
      && 0.0 <= r[j1].progress <= r[j2].progress <= 80.0
  {
    DownloadReportsSpec(jobId, n, k);
    DownloadPercentMonotone(10 * j1, 10 * j2, n);
  }

  function SaveLog(end: nat, total: nat): string {
    SAVING_LOG + NatToString(ChunkCount(end)) + "/" + NatToString(ChunkCount(total))
  }

  /** The two messages for chunk `k` of `data`: the chunk itself, then the report of the
      share sent so far. */
  function ChunkMessages(jobId: JobId, data: seq<byte>, k: nat): seq<Msg>
    requires k < ChunkCount(|data|)
  {
    var end := ChunkEnd(|data|, k);
    [JobSaveChunk(jobId, |data|, Chunk(data, k)),
     JobProgress(Some(jobId), SavePercent(end, |data|) as real, SaveLog(end, |data|))]
  }

  /** The messages for the first `n` chunks of `data`. */
  function SaveMessages(jobId: JobId, data: seq<byte>, n: nat): seq<Msg>
    requires n <= ChunkCount(|data|)
  {
    if n == 0 then [] else SaveMessages(jobId, data, n - 1) + ChunkMessages(jobId, data, n - 1)
  }

  /** The save stream alternates chunks and reports: message `2k` carries chunk `k` with
      the total size, and message `2k + 1` reports a percentage between 90 and 98. */
  lemma {:induction false} SaveMessagesSpec(jobId: JobId, data: seq<byte>, n: nat)
    requires n <= ChunkCount(|data|)
    ensures var r := SaveMessages(jobId, data, n);
      && |r| == 2 * n
      && (forall k :: 0 <= k < n ==> r[2 * k] == JobSaveChunk(jobId, |data|, Chunk(data, k)))
      && (forall k :: 0 <= k < n ==> r[2 * k + 1].JobProgress? && r[2 * k + 1].progressJobId == Some(jobId)
                                     && 90.0 <= r[2 * k + 1].progress <= 98.0)
  {
    if n > 0 {
      SaveMessagesSpec(jobId, data, n - 1);
      var prev, last := SaveMessages(jobId, data, n - 1), ChunkMessages(jobId, data, n - 1);
      var r := prev + last;
      assert SaveMessages(jobId, data, n) == r;
      forall k | 0 <= k < n
        ensures r[2 * k] == JobSaveChunk(jobId, |data|, Chunk(data, k))
        ensures r[2 * k + 1].JobProgress? && r[2 * k + 1].progressJobId == Some(jobId)
        ensures 90.0 <= r[2 * k + 1].progress <= 98.0
      {
        if k < n - 1 {
          assert r[2 * k] == prev[2 * k] && r[2 * k + 1] == prev[2 * k + 1];
        } else {
          var end := ChunkEnd(|data|, k);
          var pct := SavePercent(end, |data|);
          assert last == [JobSaveChunk(jobId, |data|, Chunk(data, k)),
                          JobProgress(Some(jobId), pct as real, SaveLog(end, |data|))];
          assert r[2 * k] == last[0] && r[2 * k + 1] == last[1];
        }
      }
    }
  }

  /** The percentage reported after a chunk does not decrease from chunk to chunk. */
  lemma {:induction false} SaveReportsRise(data: seq<byte>, k1: nat, k2: nat)
    requires k1 <= k2 < ChunkCount(|data|)
    ensures SavePercent(ChunkEnd(|data|, k1), |data|) <= SavePercent(ChunkEnd(|data|, k2), |data|)
  {
    SavePercentMonotone(ChunkEnd(|data|, k1), ChunkEnd(|data|, k2), |data|);
  }

  /** Everything a conversion that meets no cancel and no failure sends: the first report,
      one report per tenth segment, the remux report, and the save stream. */
  function ConvertMessages(jobId: JobId, n: nat, data: seq<byte>, filename: string): seq<Msg>
    requires 0 < n
  {
    [JobProgress(Some(jobId), 0.0, PARSING_LOG)] + PipelineMessages(jobId, n, data, filename)
  }

  /** What the pipeline sends for `n` segments when nothing cancels or fails it. */
  function PipelineMessages(jobId: JobId, n: nat, data: seq<byte>, filename: string): seq<Msg>
    requires 0 < n
  {
    DownloadReports(jobId, n, n) + FinishMessages(jobId, data, filename)
  }

  /** What the remux and the save send when nothing cancels or fails them. */
  function FinishMessages(jobId: JobId, data: seq<byte>, filename: string): seq<Msg> {
    [JobProgress(Some(jobId), 85.0, REMUX_START_LOG)] + SaveStream(jobId, data, filename)
  }

  /** The save stream: its start with the file name, every chunk with its report, its end. */
  function SaveStream(jobId: JobId, data: seq<byte>, filename: string): seq<Msg> {
    [JobSaveStart(jobId, filename, OUTPUT_MIME)]
    + SaveMessages(jobId, data, ChunkCount(|data|))
    + [JobSaveEnd(jobId)]
  }

  /** `/Opening|frame=|size=|time=|bitrate=|speed=/.test(message)`. */
  predicate IsProgressLog(message: string) {
    exists k :: 0 <= k < |LOG_MARKERS| && Contains(message, LOG_MARKERS[k])
  }

  /** The file names the segments are written under. */
  function SegmentNames(segments: seq<string>): (r: seq<string>)
    ensures |r| == |segments|
  {
    seq(|segments|, i requires 0 <= i < |segments| => SegmentName(i, segments[i]))
  }

  lemma {:induction false} SegmentNamesSnoc(segments: seq<string>, i: nat)
    requires i < |segments|
    ensures SegmentNames(segments)[..i + 1] == SegmentNames(segments)[..i] + [SegmentName(i, segments[i])]
  {
    var names := SegmentNames(segments);
    var n := i + 1;
    TakeSnoc(names, i, n);
  }

  /** The file system after the first `n` segments were written. */
  function WithSegments(fs: map<string, FileData>, segments: seq<string>, fetch: string -> Result<Response>, n: nat)
    : map<string, FileData>
    requires n <= |segments|
  {
    if n == 0 then fs
    else WithSegments(fs, segments, fetch, n - 1)[SegmentName(n - 1, segments[n - 1]) := Bytes(BodyOf(fetch(segments[n - 1])))]
  }

  lemma {:induction false} WithSegmentsSnoc(fs: map<string, FileData>, fs0: map<string, FileData>, segments: seq<string>,
                                            fetch: string -> Result<Response>, i: nat, res: Response)
    requires i < |segments| && fs == WithSegments(fs0, segments, fetch, i) && fetch(segments[i]) == Ok(res)
    ensures fs[SegmentName(i, segments[i]) := Bytes(res.body)] == WithSegments(fs0, segments, fetch, i + 1)
  {
  }

  /** Everything a conversion needs to run to its end when nothing cancels it: the playlist
      resolves to at least one segment, the engine is or becomes loaded, every segment
      downloads, and the remux succeeds. */
  predicate Smooth(url: string, env: Env, engine: Engine) {
    var m := PlaylistOf(url, env.fetchText, env.urls);
    && m.Ok? && 0 < |m.value.segments|
    && (engine == Loaded || (engine == Absent && env.loadError.None?))
    && (forall i :: 0 <= i < |m.value.segments| ==> Fetched(env.fetchSegment(m.value.segments[i])))
    && env.remux.Ok?
  }

  /** A cancel that does not arrive while a segment is fetched leaves the download loop
      alone. */
  predicate SparesDownload(interrupt: Option<Pause>) {
    interrupt.None? || !interrupt.value.DuringSegment?
  }

  /** The file system the download starts from: a fresh engine starts empty, an existing
      one keeps its files. */
  function StartFiles(engine: Engine, fs: map<string, FileData>): map<string, FileData> {
    if engine == Absent then map[] else fs
  }

  /** The engine's file system once a conversion of `media` got past the remux, starting
      from `engine` and `fs`: the segment files written and then unlinked with the local
      playlist, and the output `data` added. */
  function ConvertedFiles(media: Media, fetch: string -> Result<Response>, data: seq<byte>, engine: Engine,
                          fs: map<string, FileData>): map<string, FileData>
  {
    AfterRemux(WithSegments(StartFiles(engine, fs), media.segments, fetch, |media.segments|),
               SegmentNames(media.segments), data)
  }

  // ---------------------------------------------------------------- counting messages

  function CountCanceled(msgs: seq<Msg>): nat {
    if |msgs| == 0 then 0
    else CountCanceled(msgs[..|msgs| - 1]) + (if msgs[|msgs| - 1].JobCanceled? then 1 else 0)
  }

  function CountDone(msgs: seq<Msg>): nat {
    if |msgs| == 0 then 0
    else CountDone(msgs[..|msgs| - 1]) + (if msgs[|msgs| - 1].JobDone? then 1 else 0)
  }

  lemma AppendAssoc<T>(a: seq<T>, b: seq<T>, c: seq<T>)
    ensures a + b + c == a + (b + c)
  {
  }

  lemma {:induction false} CountsSnoc(msgs: seq<Msg>, m: Msg)
    ensures CountCanceled(msgs + [m]) == CountCanceled(msgs) + (if m.JobCanceled? then 1 else 0)
    ensures CountDone(msgs + [m]) == CountDone(msgs) + (if m.JobDone? then 1 else 0)
  {
    assert (msgs + [m])[..|msgs|] == msgs;
  }

  // ---------------------------------------------------------------- the worker

  class Worker {
    var cancelFlag: bool
    var currentJobId: Option<JobId>
    var currentPct: real
    var lastTick: int
    var ffmpegRunning: bool
    var canceledSent: bool
    var engine: Engine
    /** Whether the engine's log and ratio callbacks and the watchdog timer are installed. */
    var hooksInstalled: bool
    var fs: map<string, FileData>
    var outbox: seq<Msg>
    /** Where the messages of the latest conversion begin in `outbox`. */
    ghost var startIndex: nat
    /** Whether a conversion is under way. */
    ghost var inConvert: bool

    function Flags(): FlagState
      reads this`cancelFlag, this`currentJobId, this`canceledSent, this`ffmpegRunning, this`engine
    {
      FlagState(cancelFlag, currentJobId, canceledSent, ffmpegRunning, engine)
    }

    /** Since the latest conversion started, exactly one `JOB_CANCELED` was sent if the
        cancel is recorded as sent and none otherwise, and a conversion under way has sent
        no `JOB_DONE`; a loaded engine has its callbacks and the watchdog installed. */
    ghost predicate Valid()
      reads this`startIndex, this`outbox, this`canceledSent, this`inConvert, this`ffmpegRunning
      reads this`engine, this`hooksInstalled
    {
      && startIndex <= |outbox|
      && CountCanceled(outbox[startIndex..]) == (if canceledSent then 1 else 0)
      && (inConvert ==> CountDone(outbox[startIndex..]) == 0)
      && (!inConvert ==> !ffmpegRunning)
      && (engine == Loaded ==> hooksInstalled)
    }

    /** The conversion of `jobId` is under way: until it is canceled it is the current job,
        and once it is canceled the cancel was sent. */
    ghost predicate Converting(jobId: JobId)
      reads this`inConvert, this`cancelFlag, this`canceledSent, this`currentJobId
    {
      && inConvert
      && (cancelFlag ==> canceledSent)
      && (!cancelFlag ==> currentJobId == Some(jobId))
    }

    /** The worker as the offscreen document loads it. */
    constructor(now: int)
      ensures Valid() && !inConvert
      ensures Flags() == FlagState(false, None, false, false, Absent)
      ensures lastTick == now && currentPct == 0.0 && !hooksInstalled && fs == map[] && outbox == []
    {
      cancelFlag := false;
      currentJobId := None;
      currentPct := 0.0;
      lastTick := now;
      ffmpegRunning := false;
      canceledSent := false;
      engine := Absent;
      hooksInstalled := false;
      fs := map[];
      outbox := [];
      startIndex := 0;
      inConvert := false;
    }

    /** Sends one message other than `JOB_CANCELED` (and other than `JOB_DONE` while a
        conversion is under way). */
    method Send(m: Msg)
      requires Valid() && !m.JobCanceled? && !(inConvert && m.JobDone?)
      modifies this`outbox
      ensures Valid() && outbox == old(outbox) + [m]
      ensures CountDone(outbox[startIndex..]) == CountDone(old(outbox)[startIndex..]) + (if m.JobDone? then 1 else 0)
    {
      assert (outbox + [m])[startIndex..] == outbox[startIndex..] + [m];
      CountsSnoc(outbox[startIndex..], m);
      outbox := outbox + [m];
    }

    /** `progress(jobId, p, log)`: reports `p` held between 0 and 100 and records the time
        of the report for the watchdog. */
    method Progress(jobId: Option<JobId>, p: real, log: string, now: int)
      requires Valid()
      modifies this`outbox, this`lastTick
      ensures Valid() && lastTick == now
      ensures outbox == old(outbox) + [JobProgress(jobId, Clamp(p, 0.0, 100.0), log)]
    {
      lastTick := now;
      Send(JobProgress(jobId, Clamp(p, 0.0, 100.0), log));
    }

    /** `canceled(jobId)`: records the cancel as sent and sends it. */
    method Canceled(jobId: JobId)
      requires Valid() && !canceledSent
      modifies this`outbox, this`canceledSent
      ensures Valid() && canceledSent
      ensures outbox == old(outbox) + [JobCanceled(jobId)]
    {
      assert (outbox + [JobCanceled(jobId)])[startIndex..] == outbox[startIndex..] + [JobCanceled(jobId)];
      CountsSnoc(outbox[startIndex..], JobCanceled(jobId));
      canceledSent := true;
      outbox := outbox + [JobCanceled(jobId)];
    }

    /** `handleCancel()`: raises the cancel flag, exits a running engine (its file system
        goes with it), sends `JOB_CANCELED` for the current job unless one was sent, and
        forgets the current job. */
    method HandleCancel()
      requires Valid()
      modifies this`cancelFlag, this`engine, this`fs, this`canceledSent, this`currentJobId, this`outbox
      ensures Valid()
      ensures Flags() == CancelStep(old(Flags()))
      ensures outbox == old(outbox) + CancelMessages(old(Flags()))
      ensures fs == (if old(ffmpegRunning) && old(engine) != Absent then map[] else old(fs))
      ensures cancelFlag && currentJobId.None? && ffmpegRunning == old(ffmpegRunning)
      ensures canceledSent <==> old(canceledSent) || old(currentJobId).Some?
    {
      cancelFlag := true;
      if ffmpegRunning && engine != Absent {
        engine := Absent;
        fs := map[];
      }
      if currentJobId.Some? && !canceledSent {
        Canceled(currentJobId.value);
      }
      currentJobId := None;
    }

    /** `OFFSCREEN_CANCEL`. */
    method OnOffscreenCancel()
      requires Valid()
      modifies this`cancelFlag, this`engine, this`fs, this`canceledSent, this`currentJobId, this`outbox
      ensures Valid()
      ensures Flags() == CancelStep(old(Flags()))
      ensures outbox == old(outbox) + CancelMessages(old(Flags()))
      ensures fs == (if old(ffmpegRunning) && old(engine) != Absent then map[] else old(fs))
    {
      HandleCancel();
    }

    /** One tick of the five-second watchdog timer: it cancels when a job is current and
        nothing was reported for more than a minute, and otherwise does nothing. */
    method WatchdogTick(now: int)
      requires Valid() && hooksInstalled
      modifies this`cancelFlag, this`engine, this`fs, this`canceledSent, this`currentJobId, this`outbox
      ensures Valid()
      ensures WatchdogFires(old(Flags()), lastTick, now) ==>
        && Flags() == CancelStep(old(Flags())) && outbox == old(outbox) + CancelMessages(old(Flags()))
        && fs == (if old(ffmpegRunning) && old(engine) != Absent then map[] else old(fs))
      ensures !WatchdogFires(old(Flags()), lastTick, now) ==>
        Flags() == old(Flags()) && outbox == old(outbox) && fs == old(fs)
    {
      if currentJobId.None? {
        return;
      }
      if now - lastTick > WATCHDOG_TIMEOUT {
        HandleCancel();
      }
    }

    /** `ensureFF()`: creates and loads the engine unless one exists. A load that fails
        leaves the created engine in place, so later calls return at once with an engine
        that is not loaded. Only a successful load installs the callbacks and the
        watchdog. */
    method EnsureEngine(loadError: Option<string>) returns (err: Option<string>)
      modifies this`engine, this`fs, this`hooksInstalled
      ensures old(engine) != Absent ==>
        err.None? && engine == old(engine) && fs == old(fs) && hooksInstalled == old(hooksInstalled)
      ensures old(engine) == Absent ==>
        && err == loadError && fs == map[]
        && engine == (if loadError.None? then Loaded else Created)
        && hooksInstalled == (old(hooksInstalled) || loadError.None?)
    {
      if engine != Absent {
        return None;
      }
      engine := Created;
      fs := map[];
      if loadError.Some? {
        return loadError;
      }
      engine := Loaded;
      hooksInstalled := true;
      return None;
    }

    /** The engine's ratio callback: the remux percentage becomes the current one and is
        reported for the current job (which may be none). */
    method OnRemuxRatio(ratio: real, now: int)
      requires Valid() && hooksInstalled
      modifies this`currentPct, this`outbox, this`lastTick
      ensures Valid() && lastTick == now
      ensures currentPct == RemuxPercent(ratio)
      ensures 0.0 <= ratio ==> 80.0 <= currentPct <= 98.0
      ensures outbox == old(outbox) + [JobProgress(currentJobId, Clamp(currentPct, 0.0, 100.0), REMUX_LOG)]
    {
      var p := RemuxPercent(ratio);
      currentPct := p;
      Progress(currentJobId, p, REMUX_LOG, now);
    }

    /** The engine's log callback: a line with a progress marker is forwarded, trimmed, with
        the current percentage; it does not count as progress for the watchdog. */
    method OnEngineLog(message: string)
      requires Valid() && hooksInstalled
      modifies this`outbox
      ensures Valid()
      ensures IsProgressLog(message) ==> outbox == old(outbox) + [JobProgress(currentJobId, currentPct, Trim(message))]
      ensures !IsProgressLog(message) ==> outbox == old(outbox)
    {
      if IsProgressLog(message) {
        Send(JobProgress(currentJobId, currentPct, Trim(message)));
      }
    }
  

    // -------------------------------------------------------------- the conversion

    /** `OFFSCREEN_CONVERT`: clears both cancel flags and runs the conversion (both in
        `Convert`); when it fails and no cancel was sent for it, `JOB_DONE` reports the failure. Over the whole
        conversion at most one `JOB_CANCELED` is sent, none without a cancel request, and
        never both a `JOB_CANCELED` and a `JOB_DONE`. */
    method OnOffscreenConvert(jobId: JobId, url: string, env: Env, now: int, interrupt: Option<Pause>)
      returns (failure: Option<string>)
      requires Valid() && !inConvert
      modifies this
      ensures Valid() && !inConvert && startIndex == old(|outbox|)
      ensures CountCanceled(outbox[startIndex..]) <= 1
      ensures CountDone(outbox[startIndex..]) == (if failure.Some? && !canceledSent then 1 else 0)
      ensures CountCanceled(outbox[startIndex..]) == 1 ==> CountDone(outbox[startIndex..]) == 0
      ensures failure.Some? && !canceledSent ==> outbox[|outbox| - 1] == JobDone(jobId, false, None, failure)
      ensures interrupt.None? ==> CountCanceled(outbox[startIndex..]) == 0
      ensures failure.None? && !cancelFlag ==>
        var m := PlaylistOf(url, env.fetchText, env.urls);
        && m.Ok? && 0 < |m.value.segments| && env.remux.Ok?
        && outbox == old(outbox) + ConvertMessages(jobId, |m.value.segments|, env.remux.value, env.filename)
        && currentJobId == Some(jobId)
        && engine == Loaded && fs == ConvertedFiles(m.value, env.fetchSegment, env.remux.value, old(engine), old(fs))
      ensures interrupt.None? && Smooth(url, env, old(engine)) ==> failure.None?
      ensures interrupt.None? ==> currentJobId == Some(jobId) && !cancelFlag && !canceledSent
      ensures interrupt == Some(DuringRemux) && canceledSent ==>
        failure == Some(ENGINE_EXITED_ERROR) && engine == Absent && fs == map[]
      ensures lastTick == now
    {
      failure := Convert(jobId, url, env, now, interrupt);
      Settle(jobId, failure);
    }

    /** Nothing clears the current job when a conversion ends: a conversion that succeeds
        with no cancel leaves its job current, so the first watchdog tick more than a minute
        after its last report cancels that job. */
    method WatchdogAfterEnd(jobId: JobId, url: string, env: Env, now: int, later: int)
      returns (failure: Option<string>)
      requires Valid() && !inConvert && Smooth(url, env, engine) && later - now > WATCHDOG_TIMEOUT
      modifies this
      ensures 0 < |outbox| && outbox[|outbox| - 1] == JobCanceled(jobId)
      ensures canceledSent && currentJobId.None?
    {
      failure := OnOffscreenConvert(jobId, url, env, now, None);
      WatchdogTick(later);
    }

    /** The end of `onOffscreenConvert`: the conversion is no longer under way, and a
        failure is reported with `JOB_DONE` unless a cancel was already sent. */
    method Settle(jobId: JobId, failure: Option<string>)
      requires Valid() && inConvert && !ffmpegRunning
      modifies this`inConvert, this`outbox
      ensures Valid() && !inConvert
      ensures CountCanceled(outbox[startIndex..]) == CountCanceled(old(outbox)[startIndex..])
      ensures CountDone(outbox[startIndex..]) == (if failure.Some? && !canceledSent then 1 else 0)
      ensures failure.Some? && !canceledSent ==> outbox[|outbox| - 1] == JobDone(jobId, false, None, failure)
      ensures failure.None? || canceledSent ==> outbox == old(outbox)
    {
      inConvert := false;
      if failure.Some? && !canceledSent {
        Send(JobDone(jobId, false, None, failure));
      }
    }

    /** The listener's flag resets, then `convert(jobId, url)` up to the moment it throws
        or returns: the job becomes the current one, 0 is reported, the playlist is resolved (a cancel may be handled
        while it is fetched), and a playlist with segments goes through the pipeline. */
    method Convert(jobId: JobId, url: string, env: Env, now: int, interrupt: Option<Pause>) returns (err: Option<string>)
      requires Valid() && !inConvert
      modifies this`cancelFlag, this`currentJobId, this`currentPct, this`lastTick, this`ffmpegRunning
      modifies this`canceledSent, this`engine, this`hooksInstalled, this`fs, this`outbox
      modifies this`startIndex, this`inConvert
      ensures Valid() && Converting(jobId) && !ffmpegRunning && startIndex == old(|outbox|)
      ensures interrupt.None? ==> !cancelFlag && !canceledSent
      ensures err.None? && !cancelFlag ==>
        var m := PlaylistOf(url, env.fetchText, env.urls);
        && m.Ok? && 0 < |m.value.segments| && env.remux.Ok?
        && outbox == old(outbox) + ConvertMessages(jobId, |m.value.segments|, env.remux.value, env.filename)
        && engine == Loaded && fs == ConvertedFiles(m.value, env.fetchSegment, env.remux.value, old(engine), old(fs))
      ensures interrupt.None? && Smooth(url, env, old(engine)) ==> err.None?
      ensures interrupt == Some(DuringRemux) && canceledSent ==>
        err == Some(ENGINE_EXITED_ERROR) && engine == Absent && fs == map[]
      ensures lastTick == now
    {
      Start();
      var media := Begin(jobId, url, env, now, interrupt);
      if media.Err? {
        return Some(media.error);
      }
      if |media.value.segments| == 0 {
        return Some(NO_SEGMENTS_ERROR);
      }
      err := Pipeline(jobId, media.value.segments, media.value.extinf, env, now, interrupt);
      if err.None? && !cancelFlag {
        ghost var rest := PipelineMessages(jobId, |media.value.segments|, env.remux.value, env.filename);
        AppendAssoc(old(outbox), [JobProgress(Some(jobId), 0.0, PARSING_LOG)], rest);
      }
    }

    /** The listener's first steps: both cancel flags are cleared and the conversion is
        under way, with no message sent for it yet. */
    method Start()
      requires Valid() && !inConvert
      modifies this`cancelFlag, this`canceledSent, this`startIndex, this`inConvert
      ensures Valid() && inConvert && !cancelFlag && !canceledSent && !ffmpegRunning
      ensures startIndex == |outbox|
    {
      cancelFlag := false;
      canceledSent := false;
      startIndex := |outbox|;
      inConvert := true;
      assert outbox[startIndex..] == [];
    }

    /** The start of `convert`: the job becomes the current one, 0 is reported and the
        playlist is resolved; a cancel arriving while it is fetched is handled. */
    method Begin(jobId: JobId, url: string, env: Env, now: int, interrupt: Option<Pause>)
      returns (media: Result<Media>)
      requires Valid() && inConvert && !cancelFlag && !canceledSent && !ffmpegRunning
      modifies this`cancelFlag, this`currentJobId, this`lastTick, this`canceledSent, this`engine
      modifies this`fs, this`outbox
      ensures Valid() && Converting(jobId) && !ffmpegRunning && engine == old(engine) && fs == old(fs)
      ensures lastTick == now
      ensures media == PlaylistOf(url, env.fetchText, env.urls)
      ensures media.Ok? ==> |media.value.segments| == |media.value.extinf|
      ensures interrupt == Some(DuringResolve) ==> cancelFlag
      ensures interrupt != Some(DuringResolve) ==>
        && !cancelFlag && !canceledSent
        && outbox == old(outbox) + [JobProgress(Some(jobId), 0.0, PARSING_LOG)]
    {
      currentJobId := Some(jobId);
      Progress(Some(jobId), 0.0, PARSING_LOG, now);
      ReportedPercent(0.0);
      media := ResolvePlaylist(url, env.fetchText, env.urls);
      if interrupt == Some(DuringResolve) {
        HandleCancel();
      }
    }

    /** The part of `convert` after the playlist: the engine is ensured and the segments
        are downloaded, remuxed and saved. */
    method Pipeline(jobId: JobId, segments: seq<string>, extinf: seq<Duration>, env: Env, now: int,
                    interrupt: Option<Pause>)
      returns (err: Option<string>)
      requires Valid() && Converting(jobId) && !ffmpegRunning && 0 < |segments| && lastTick == now
      modifies this`cancelFlag, this`currentJobId, this`currentPct, this`lastTick, this`ffmpegRunning
      modifies this`canceledSent, this`engine, this`hooksInstalled, this`fs, this`outbox
      ensures Valid() && Converting(jobId) && !ffmpegRunning
      ensures interrupt.None? ==> cancelFlag == old(cancelFlag) && canceledSent == old(canceledSent)
      ensures err.None? && !cancelFlag ==>
        && !old(cancelFlag) && env.remux.Ok?
        && outbox == old(outbox) + PipelineMessages(jobId, |segments|, env.remux.value, env.filename)
        && engine == Loaded
        && fs == ConvertedFiles(Media(segments, extinf), env.fetchSegment, env.remux.value, old(engine), old(fs))
      ensures && interrupt.None? && !old(cancelFlag)
              && (old(engine) == Loaded || (old(engine) == Absent && env.loadError.None?))
              && (forall i :: 0 <= i < |segments| ==> Fetched(env.fetchSegment(segments[i])))
              && env.remux.Ok?
              ==> err.None?
      ensures lastTick == now
      ensures interrupt == Some(DuringRemux) && !old(canceledSent) && canceledSent ==>
        err == Some(ENGINE_EXITED_ERROR) && engine == Absent && fs == map[]
    {
      var names;
      names, err := Download(jobId, segments, env, now, interrupt);
      if err.Some? {
        return;
      }
      err := Finish(jobId, names, extinf, env, now, interrupt);
      if err.None? && !cancelFlag {
        AppendAssoc(old(outbox), DownloadReports(jobId, |segments|, |segments|),
                    FinishMessages(jobId, env.remux.value, env.filename));
      }
    }

    /** The engine is ensured and every segment is downloaded into its file system. */
    method Download(jobId: JobId, segments: seq<string>, env: Env, now: int, interrupt: Option<Pause>)
      returns (names: seq<string>, err: Option<string>)
      requires Valid() && Converting(jobId) && !ffmpegRunning && 0 < |segments| && lastTick == now
      modifies this`cancelFlag, this`currentJobId, this`currentPct, this`lastTick, this`canceledSent
      modifies this`engine, this`hooksInstalled, this`fs, this`outbox
      ensures Valid() && Converting(jobId) && !ffmpegRunning
      ensures lastTick == now
      ensures SparesDownload(interrupt) ==> cancelFlag == old(cancelFlag) && canceledSent == old(canceledSent)
      ensures err.None? ==>
        && !old(cancelFlag) && !cancelFlag && engine == Loaded
        && outbox == old(outbox) + DownloadReports(jobId, |segments|, |segments|)
        && names == SegmentNames(segments)
        && fs == WithSegments(StartFiles(old(engine), old(fs)), segments, env.fetchSegment, |segments|)
      ensures && interrupt.None? && !old(cancelFlag)
              && (old(engine) == Loaded || (old(engine) == Absent && env.loadError.None?))
              && (forall i :: 0 <= i < |segments| ==> Fetched(env.fetchSegment(segments[i])))
              ==> err.None?
    {
      err := EnsureEngine(env.loadError);
      if err.Some? {
        return [], err;
      }
      if && interrupt.None? && !cancelFlag && engine == Loaded
         && forall i :: 0 <= i < |segments| ==> Fetched(env.fetchSegment(segments[i])) {
        DownloadCompletes(interrupt, segments, env.fetchSegment, engine, 0);
      }
      names, err := DownloadSegments(jobId, segments, env.fetchSegment, now, interrupt);
    }

    /** The remux and the save, on a loaded engine whose file system holds the segments. */
    method Finish(jobId: JobId, names: seq<string>, extinf: seq<Duration>, env: Env, now: int,
                  interrupt: Option<Pause>)
      returns (err: Option<string>)
      requires Valid() && Converting(jobId) && !ffmpegRunning && engine == Loaded && lastTick == now
      modifies this`cancelFlag, this`currentJobId, this`lastTick, this`ffmpegRunning
      modifies this`canceledSent, this`engine, this`fs, this`outbox
      ensures Valid() && Converting(jobId) && !ffmpegRunning && lastTick == now
      ensures interrupt == Some(DuringRemux) && !old(canceledSent) && canceledSent ==>
        err == Some(ENGINE_EXITED_ERROR) && engine == Absent && fs == map[]
      ensures interrupt.None? ==> cancelFlag == old(cancelFlag) && canceledSent == old(canceledSent)
      ensures err.None? && !cancelFlag ==>
        && !old(cancelFlag) && env.remux.Ok?
        && outbox == old(outbox) + FinishMessages(jobId, env.remux.value, env.filename)
        && engine == Loaded && fs == AfterRemux(old(fs), names, env.remux.value)
      ensures interrupt.None? && !old(cancelFlag) && env.remux.Ok? ==> err.None?
    {
      var data;
      data, err := Remux(jobId, names, extinf, env.remux, now, interrupt);
      if err.Some? {
        return;
      }
      err := Save(jobId, data, env.filename, now, interrupt);
      if err.None? && !cancelFlag {
        AppendAssoc(old(outbox), [JobProgress(Some(jobId), 85.0, REMUX_START_LOG)], SaveStream(jobId, data, env.filename));
      }
    }

    /** The download loop: stops at a raised cancel flag or at the first segment that
        fails, and otherwise writes every segment under its name. A cancel handled while
        segment `|names|` is fetched aborts that fetch. */
    method DownloadSegments(jobId: JobId, segments: seq<string>, fetch: string -> Result<Response>, now: int,
                            interrupt: Option<Pause>)
      returns (names: seq<string>, err: Option<string>)
      requires Valid() && Converting(jobId) && 0 < |segments| && !ffmpegRunning && lastTick == now
      modifies this`cancelFlag, this`engine, this`fs, this`canceledSent, this`currentJobId, this`outbox
      modifies this`currentPct, this`lastTick
      ensures Valid() && Converting(jobId) && lastTick == now
      ensures DownloadStop(old(cancelFlag), interrupt, segments, fetch, old(engine), 0) == Stop(|names|, err)
      ensures names == SegmentNames(segments)[..|names|]
      ensures fs == WithSegments(old(fs), segments, fetch, |names|)
      ensures err.None? ==> |names| == |segments| && names == SegmentNames(segments) && engine == Loaded
      ensures AbortedAt(old(cancelFlag), interrupt, |names|, |segments|) ==>
        Flags() == CancelStep(old(Flags()))
        && outbox == old(outbox) + DownloadReports(jobId, |segments|, |names|) + CancelMessages(old(Flags()))
      ensures !AbortedAt(old(cancelFlag), interrupt, |names|, |segments|) ==>
        Flags() == old(Flags()) && outbox == old(outbox) + DownloadReports(jobId, |segments|, |names|)
    {
      names := [];
      err := None;
      var i := 0;
      while i < |segments|
        invariant i <= |segments| && |names| == i && err.None?
        invariant Downloaded(jobId, segments, fetch, old(outbox), old(fs), i, names, fs, outbox)
        invariant Valid() && Converting(jobId) && !ffmpegRunning && lastTick == now
        invariant Flags() == old(Flags())
        invariant 0 < i ==> !cancelFlag && engine == Loaded && !old(cancelFlag)
        invariant DownloadStop(old(cancelFlag), interrupt, segments, fetch, old(engine), 0)
                  == DownloadStop(cancelFlag, interrupt, segments, fetch, engine, i)
      {
        names, err := DownloadSegment(jobId, segments, i, fetch, now, interrupt, names, old(outbox), old(fs));
        if err.Some? {
          return;
        }
        i := i + 1;
      }
      assert SegmentNames(segments)[..i] == SegmentNames(segments);
    }

    /** The state after the first `i` segments were downloaded and stored. */
    ghost predicate Downloaded(jobId: JobId, segments: seq<string>, fetch: string -> Result<Response>,
                               sent: seq<Msg>, fs0: map<string, FileData>, i: nat, names: seq<string>,
                               fs: map<string, FileData>, outbox: seq<Msg>)
    {
      && 0 < |segments| && i <= |segments|
      && names == SegmentNames(segments)[..i]
      && fs == WithSegments(fs0, segments, fetch, i)
      && outbox == sent + DownloadReports(jobId, |segments|, i)
    }

    /** One turn of the download loop: the cancel check, the fetch of segment `i` (a
        cancel while it is pending aborts it), the status check, the write of the segment
        into the engine's file system under its name, and the report of every tenth
        segment. `sent` and `fs0` are the messages and the file system the loop started
        from. */
    method DownloadSegment(jobId: JobId, segments: seq<string>, i: nat, fetch: string -> Result<Response>, now: int,
                           interrupt: Option<Pause>, names: seq<string>, ghost sent: seq<Msg>,
                           ghost fs0: map<string, FileData>)
      returns (names': seq<string>, err: Option<string>)
      requires Valid() && Converting(jobId) && !ffmpegRunning && i < |segments| && lastTick == now
      requires Downloaded(jobId, segments, fetch, sent, fs0, i, names, fs, outbox)
      modifies this`cancelFlag, this`engine, this`fs, this`canceledSent, this`currentJobId, this`outbox
      modifies this`currentPct, this`lastTick
      ensures Valid() && Converting(jobId) && lastTick == now
      ensures err.Some? ==> names' == names && fs == old(fs)
      ensures err.None? ==> Downloaded(jobId, segments, fetch, sent, fs0, i + 1, names', fs, outbox) && engine == Loaded
      ensures old(cancelFlag) ==> err == Some(CANCELED_ERROR) && Flags() == old(Flags()) && outbox == old(outbox)
      ensures AbortedAt(old(cancelFlag), interrupt, i, |segments|) ==>
        && err == Some(ABORT_ERROR)
        && Flags() == CancelStep(old(Flags())) && outbox == old(outbox) + CancelMessages(old(Flags()))
      ensures !old(cancelFlag) && !AbortedAt(old(cancelFlag), interrupt, i, |segments|) ==>
        && Flags() == old(Flags())
        && err == SegmentFailure(fetch(segments[i]), segments[i], engine)
        && (err.Some? ==> outbox == old(outbox))
      ensures err.None? && i % 10 == 0 ==> currentPct == DownloadPercent(i, |segments|) as real
    {
      err := SegmentGate(jobId, i, interrupt);
      if err.Some? {
        return names, err;
      }
      names', err := FetchSegment(jobId, segments, i, fetch, now, names, sent, fs0);
    }

    /** The checks before segment `i` is fetched: a cancel already handled ends the loop,
        and a cancel arriving while the request is pending aborts it. */
    method SegmentGate(jobId: JobId, i: nat, interrupt: Option<Pause>) returns (err: Option<string>)
      requires Valid() && Converting(jobId) && !ffmpegRunning
      modifies this`cancelFlag, this`engine, this`fs, this`canceledSent, this`currentJobId, this`outbox
      ensures Valid() && Converting(jobId) && fs == old(fs)
      ensures old(cancelFlag) ==> err == Some(CANCELED_ERROR) && Flags() == old(Flags()) && outbox == old(outbox)
      ensures !old(cancelFlag) && interrupt == Some(DuringSegment(i)) ==>
        && err == Some(ABORT_ERROR)
        && Flags() == CancelStep(old(Flags())) && outbox == old(outbox) + CancelMessages(old(Flags()))
      ensures !old(cancelFlag) && interrupt != Some(DuringSegment(i)) ==>
        err.None? && Flags() == old(Flags()) && outbox == old(outbox)
    {
      if cancelFlag {
        return Some(CANCELED_ERROR);
      }
      if interrupt == Some(DuringSegment(i)) {
        HandleCancel();
        return Some(ABORT_ERROR);
      }
      return None;
    }

    /** Segment `i` is fetched; a failed request, a non-ok status or an engine that is not
        loaded ends the loop, anything else is stored. */
    method FetchSegment(jobId: JobId, segments: seq<string>, i: nat, fetch: string -> Result<Response>,
                        now: int, names: seq<string>, ghost sent: seq<Msg>, ghost fs0: map<string, FileData>)
      returns (names': seq<string>, err: Option<string>)
      requires Valid() && i < |segments| && lastTick == now
      requires Downloaded(jobId, segments, fetch, sent, fs0, i, names, fs, outbox)
      modifies this`fs, this`outbox, this`currentPct, this`lastTick
      ensures Valid() && lastTick == now
      ensures err == SegmentFailure(fetch(segments[i]), segments[i], engine)
      ensures err.Some? ==> names' == names && fs == old(fs) && outbox == old(outbox)
      ensures err.None? ==> Downloaded(jobId, segments, fetch, sent, fs0, i + 1, names', fs, outbox) && engine == Loaded
      ensures err.None? && i % 10 == 0 ==> currentPct == DownloadPercent(i, |segments|) as real
    {
      var u := segments[i];
      var res := fetch(u);
      err := SegmentFailure(res, u, engine);
      if err.Some? {
        return names, err;
      }
      names' := StoreSegment(jobId, segments, i, fetch, res.value, now, names, sent, fs0);
    }

    /** The end of a turn of the download loop: the body of segment `i` is written under
        the segment's name, the name is recorded, and every tenth segment is reported. */
    method StoreSegment(jobId: JobId, segments: seq<string>, i: nat, fetch: string -> Result<Response>,
                        res: Response, now: int, names: seq<string>, ghost sent: seq<Msg>,
                        ghost fs0: map<string, FileData>)
      returns (names': seq<string>)
      requires Valid() && i < |segments| && fetch(segments[i]) == Ok(res) && lastTick == now
      requires names == SegmentNames(segments)[..i] && fs == WithSegments(fs0, segments, fetch, i)
      requires outbox == sent + DownloadReports(jobId, |segments|, i)
      modifies this`fs, this`outbox, this`currentPct, this`lastTick
      ensures Valid() && lastTick == now
      ensures names' == SegmentNames(segments)[..i + 1]
      ensures fs == WithSegments(fs0, segments, fetch, i + 1)
      ensures outbox == sent + DownloadReports(jobId, |segments|, i + 1)
      ensures i % 10 == 0 ==> currentPct == DownloadPercent(i, |segments|) as real
      ensures i % 10 != 0 ==> currentPct == old(currentPct)
    {
      var name := SegmentName(i, segments[i]);
      WithSegmentsSnoc(fs, fs0, segments, fetch, i, res);
      fs := fs[name := Bytes(res.body)];
      if i % 10 == 0 {
        var pct := DownloadPercent(i, |segments|);
        currentPct := pct as real;
        Progress(Some(jobId), pct as real, DownloadLog(i, |segments|), now);
        ReportedPercent(pct as real);
      }
      AppendAssoc(sent, DownloadReports(jobId, |segments|, i), DownloadReportFor(jobId, i, |segments|));
      SegmentNamesSnoc(segments, i);
      names' := names + [name];
    }

    /** Writes the local playlist and, unless a cancel was raised, runs the engine; on
        success the output is kept and the inputs are unlinked. No cancel can be handled
        between the end of the run and the cancel check after the cleanup, so that check
        never fires here. */
    method Remux(jobId: JobId, names: seq<string>, extinf: seq<Duration>, remux: Result<seq<byte>>, now: int,
                 interrupt: Option<Pause>)
      returns (data: seq<byte>, err: Option<string>)
      requires Valid() && Converting(jobId) && !ffmpegRunning && engine == Loaded && lastTick == now
      modifies this`cancelFlag, this`engine, this`fs, this`canceledSent, this`currentJobId, this`outbox
      modifies this`lastTick, this`ffmpegRunning
      ensures Valid() && Converting(jobId) && !ffmpegRunning && lastTick == now
      ensures old(cancelFlag) ==>
        && err == Some(CANCELED_ERROR) && Flags() == old(Flags()) && outbox == old(outbox)
        && fs == WithLocalPlaylist(old(fs), names, extinf)
      ensures !old(cancelFlag) && interrupt == Some(DuringRemux) ==>
        && err == Some(ENGINE_EXITED_ERROR) && fs == map[]
        && Flags() == CancelStep(old(Flags()).(ffmpegRunning := true)).(ffmpegRunning := false)
        && outbox == old(outbox) + [JobProgress(Some(jobId), 85.0, REMUX_START_LOG)] + CancelMessages(old(Flags()))
      ensures !old(cancelFlag) && interrupt != Some(DuringRemux) ==>
        && Flags() == old(Flags())
        && outbox == old(outbox) + [JobProgress(Some(jobId), 85.0, REMUX_START_LOG)]
        && (err.None? <==> remux.Ok?)
        && (remux.Err? ==> err == Some(remux.error))
        && (remux.Ok? ==> data == remux.value && fs == AfterRemux(old(fs), names, data))
    {
      WriteLocalPlaylist(names, extinf);
      if cancelFlag {
        return [], Some(CANCELED_ERROR);
      }
      var run := RunEngine(jobId, remux, now, interrupt);
      if run.Err? {
        return [], Some(run.error);
      }
      data := run.value;
      LocalPlaylistUnlinked(old(fs), names, extinf, data);
      fs := fs[OUTPUT_FILE := Bytes(data)];
      Cleanup(names);
      err := None;
    }

    /** The cleanup after the run: every segment file, then `local.m3u8`, is unlinked. */
    method Cleanup(names: seq<string>)
      modifies this`fs
      ensures fs == Unlinked(old(fs), names) - {LOCAL_PLAYLIST}
    {
      var i := 0;
      while i < |names|
        invariant 0 <= i <= |names|
        invariant fs == Unlinked(old(fs), names[..i])
      {
        assert names[..i + 1][..i] == names[..i];
        fs := fs - {names[i]};
        i := i + 1;
      }
      assert names[..i] == names;
      fs := fs - {LOCAL_PLAYLIST};
    }

    /** `buildLocalM3U8` and the write of its text as `local.m3u8`. */
    method WriteLocalPlaylist(names: seq<string>, extinf: seq<Duration>)
      modifies this`fs
      ensures fs == WithLocalPlaylist(old(fs), names, extinf)
    {
      var local := BuildLocalM3U8(names, extinf);
      fs := fs[LOCAL_PLAYLIST := Text(local)];
    }

    /** Reports 85 and runs the engine with the running flag raised; a cancel while it runs
        exits the engine, its file system goes with it, and the run fails. */
    method RunEngine(jobId: JobId, remux: Result<seq<byte>>, now: int, interrupt: Option<Pause>)
      returns (run: Result<seq<byte>>)
      requires Valid() && Converting(jobId) && !cancelFlag && !ffmpegRunning && engine == Loaded
      modifies this`cancelFlag, this`engine, this`fs, this`canceledSent, this`currentJobId, this`outbox
      modifies this`lastTick, this`ffmpegRunning
      ensures Valid() && Converting(jobId) && !ffmpegRunning && lastTick == now
      ensures interrupt == Some(DuringRemux) ==>
        && run == Err(ENGINE_EXITED_ERROR) && fs == map[]
        && Flags() == CancelStep(old(Flags()).(ffmpegRunning := true)).(ffmpegRunning := false)
        && outbox == old(outbox) + [JobProgress(Some(jobId), 85.0, REMUX_START_LOG)] + CancelMessages(old(Flags()))
      ensures interrupt != Some(DuringRemux) ==>
        && run == remux && fs == old(fs) && Flags() == old(Flags())
        && outbox == old(outbox) + [JobProgress(Some(jobId), 85.0, REMUX_START_LOG)]
    {
      Progress(Some(jobId), 85.0, REMUX_START_LOG, now);
      ReportedPercent(85.0);
      ffmpegRunning := true;
      run := remux;
      if interrupt == Some(DuringRemux) {
        HandleCancel();
        run := Err(ENGINE_EXITED_ERROR);
      }
      ffmpegRunning := false;
    }

    /** Announces the save, streams the chunks and ends the save. */
    method Save(jobId: JobId, data: seq<byte>, filename: string, now: int, interrupt: Option<Pause>)
      returns (err: Option<string>)
      requires Valid() && Converting(jobId) && !cancelFlag && !ffmpegRunning && lastTick == now
      modifies this`cancelFlag, this`engine, this`fs, this`canceledSent, this`currentJobId, this`outbox, this`lastTick
      ensures Valid() && Converting(jobId) && fs == old(fs) && lastTick == now
      ensures PausedAfterChunk(interrupt, ChunkCount(|data|)) ==>
        var k, n := interrupt.value.index, ChunkCount(|data|);
        && Flags() == CancelStep(old(Flags()))
        && err == (if k + 1 == n then None else Some(CANCELED_ERROR))
        && outbox == old(outbox) + [JobSaveStart(jobId, filename, OUTPUT_MIME)] + SaveMessages(jobId, data, k + 1)
                     + CancelMessages(old(Flags())) + (if k + 1 == n then [JobSaveEnd(jobId)] else [])
      ensures !PausedAfterChunk(interrupt, ChunkCount(|data|)) ==>
        Flags() == old(Flags()) && err.None? && outbox == old(outbox) + SaveStream(jobId, data, filename)
    {
      var start := JobSaveStart(jobId, filename, OUTPUT_MIME);
      Send(start);
      err := SendChunks(jobId, data, now, interrupt);
      if err.Some? {
        return;
      }
      Send(JobSaveEnd(jobId));
      ghost var sent := SaveMessages(jobId, data, ChunkCount(|data|));
      AppendAssoc(old(outbox), [start], sent);
      AppendAssoc(old(outbox), [start] + sent, [JobSaveEnd(jobId)]);
    }

    /** The chunk loop: while bytes remain and no cancel was raised, sends the next chunk.
        `k` counts the chunks sent. */
    method SendChunks(jobId: JobId, data: seq<byte>, now: int, interrupt: Option<Pause>) returns (err: Option<string>)
      requires Valid() && Converting(jobId) && !cancelFlag && !ffmpegRunning && lastTick == now
      modifies this`cancelFlag, this`engine, this`fs, this`canceledSent, this`currentJobId, this`outbox, this`lastTick
      ensures Valid() && Converting(jobId) && fs == old(fs) && lastTick == now
      ensures PausedAfterChunk(interrupt, ChunkCount(|data|)) ==>
        var k, n := interrupt.value.index, ChunkCount(|data|);
        && Flags() == CancelStep(old(Flags()))
        && outbox == old(outbox) + SaveMessages(jobId, data, k + 1) + CancelMessages(old(Flags()))
        && err == (if k + 1 == n then None else Some(CANCELED_ERROR))
      ensures !PausedAfterChunk(interrupt, ChunkCount(|data|)) ==>
        Flags() == old(Flags()) && outbox == old(outbox) + SaveMessages(jobId, data, ChunkCount(|data|)) && err.None?
    {
      var total := |data|;
      var offset := 0;
      var k := 0;
      while offset < total
        invariant offset == k * CHUNK && k <= ChunkCount(total)
        invariant Valid() && Converting(jobId) && fs == old(fs) && !ffmpegRunning && lastTick == now
        invariant !cancelFlag ==>
          && Flags() == old(Flags()) && outbox == old(outbox) + SaveMessages(jobId, data, k)
          && !PausedAfterChunk(interrupt, k)
        invariant cancelFlag ==>
          && 0 < k && interrupt == Some(AfterChunk(k - 1))
          && Flags() == CancelStep(old(Flags()))
          && outbox == old(outbox) + SaveMessages(jobId, data, k) + CancelMessages(old(Flags()))
      {
        if cancelFlag {
          ChunkOffsets(total, k);
          return Some(CANCELED_ERROR);
        }
        ChunkOffsets(total, k);
        SendChunk(jobId, data, k, offset, now, interrupt, old(outbox));
        offset := offset + CHUNK;
        k := k + 1;
      }
      ChunkOffsets(total, k);
      assert k == ChunkCount(total);
      err := None;
    }

    /** One turn of the chunk loop: sends chunk `k` with the total size, reports the share
        sent, and yields (a cancel may be handled in that pause). */
    method SendChunk(jobId: JobId, data: seq<byte>, k: nat, offset: nat, now: int, interrupt: Option<Pause>,
                     ghost sent: seq<Msg>)
      requires Valid() && Converting(jobId) && !cancelFlag && !ffmpegRunning && lastTick == now
      requires k < ChunkCount(|data|) && offset == k * CHUNK
      requires outbox == sent + SaveMessages(jobId, data, k)
      modifies this`cancelFlag, this`engine, this`fs, this`canceledSent, this`currentJobId, this`outbox, this`lastTick
      ensures Valid() && Converting(jobId) && fs == old(fs) && lastTick == now
      ensures interrupt == Some(AfterChunk(k)) ==>
        && Flags() == CancelStep(old(Flags()))
        && outbox == sent + SaveMessages(jobId, data, k + 1) + CancelMessages(old(Flags()))
      ensures interrupt != Some(AfterChunk(k)) ==>
        Flags() == old(Flags()) && outbox == sent + SaveMessages(jobId, data, k + 1)
    {
      EmitChunk(jobId, data, k, offset, now);
      AppendAssoc(sent, SaveMessages(jobId, data, k), ChunkMessages(jobId, data, k));
      if interrupt == Some(AfterChunk(k)) {
        HandleCancel();
      }
    }

    /** Sends chunk `k` with the total size and reports the share of the output sent. */
    method EmitChunk(jobId: JobId, data: seq<byte>, k: nat, offset: nat, now: int)
      requires Valid() && k < ChunkCount(|data|) && offset == k * CHUNK
      modifies this`outbox, this`lastTick
      ensures Valid() && lastTick == now
      ensures outbox == old(outbox) + ChunkMessages(jobId, data, k)
    {
      var total := |data|;
      var end := Min(total, offset + CHUNK);
      assert end == ChunkEnd(total, k);
      Send(JobSaveChunk(jobId, total, data[offset..end]));
      var pct := SavePercent(end, total);
      Progress(Some(jobId), pct as real, SaveLog(end, total), now);
      ReportedPercent(pct as real);
    }
  }

  /** Where the download loop stops, and why. */
  datatype Stop = Stop(count: nat, failure: Option<string>)

  /** Where the download loop, at segment `i`, stops: at once with the cancel error when a
      cancel was raised; at the end without an error; at a segment whose fetch a cancel
      aborts; or at the first segment that fails. */
  function DownloadStop(canceled: bool, interrupt: Option<Pause>, segments: seq<string>,
                        fetch: string -> Result<Response>, engine: Engine, i: nat): (r: Stop)
    requires i <= |segments|
    ensures i <= r.count <= |segments|
    ensures r.failure.None? <==> r.count == |segments|
    ensures canceled ==> r == Stop(i, Some(CANCELED_ERROR)) || i == |segments|
    decreases |segments| - i
  {
    if i == |segments| then Stop(i, None)
    else if canceled then Stop(i, Some(CANCELED_ERROR))
    else if interrupt == Some(DuringSegment(i)) then Stop(i, Some(ABORT_ERROR))
    else
      var failure := SegmentFailure(fetch(segments[i]), segments[i], engine);
      if failure.Some? then Stop(i, failure) else DownloadStop(false, interrupt, segments, fetch, engine, i + 1)
  }

  /** Where the loop stops it does so for the first reason met: every earlier segment
      was neither aborted nor failed, and the stop is the abort or the failure of the
      segment it names. */
  lemma {:induction false} DownloadStopSpec(interrupt: Option<Pause>, segments: seq<string>,
                                            fetch: string -> Result<Response>, engine: Engine, i: nat)
    requires i <= |segments|
    ensures var r := DownloadStop(false, interrupt, segments, fetch, engine, i);
      && (forall j :: i <= j < r.count ==>
            interrupt != Some(DuringSegment(j)) && SegmentFailure(fetch(segments[j]), segments[j], engine).None?)
      && (r.count < |segments| ==>
            r.failure == if interrupt == Some(DuringSegment(r.count)) then Some(ABORT_ERROR)
                         else SegmentFailure(fetch(segments[r.count]), segments[r.count], engine))
    decreases |segments| - i
  {
    if i < |segments| && interrupt != Some(DuringSegment(i))
       && SegmentFailure(fetch(segments[i]), segments[i], engine).None? {
      DownloadStopSpec(interrupt, segments, fetch, engine, i + 1);
    }
  }

  /** With a loaded engine, no cancel, and every segment answered with a successful
      status, the loop runs to the end. */
  lemma {:induction false} DownloadCompletes(interrupt: Option<Pause>, segments: seq<string>,
                                             fetch: string -> Result<Response>, engine: Engine, i: nat)
    requires i <= |segments| && engine == Loaded && interrupt.None?
    requires forall j :: 0 <= j < |segments| ==> Fetched(fetch(segments[j]))
    ensures DownloadStop(false, interrupt, segments, fetch, engine, i) == Stop(|segments|, None)
    decreases |segments| - i
  {
    if i < |segments| {
      DownloadCompletes(interrupt, segments, fetch, engine, i + 1);
    }
  }

  /** The download of segment `i` of `n` is aborted: no cancel was raised before it, and
      a cancel is handled while its fetch is pending. */
  predicate AbortedAt(canceled: bool, interrupt: Option<Pause>, i: nat, n: nat) {
    !canceled && interrupt == Some(DuringSegment(i)) && i < n
  }

  /** A cancel is handled in the pause after one of the first `n` chunks. */
  predicate PausedAfterChunk(interrupt: Option<Pause>, n: nat) {
    interrupt.Some? && interrupt.value.AfterChunk? && interrupt.value.index < n
  }

  /** The error of a segment answered with an unsuccessful status. */
  function SegmentError(status: nat, u: string): string {
    SEGMENT_ERROR + NatToString(status) + " " + u
  }

  /** How the download of a segment fails, in the order the checks are made: the fetch
      rejects, the status is not in the 200 range, or the engine cannot take the file. */
  function SegmentFailure(r: Result<Response>, u: string, engine: Engine): Option<string> {
    if r.Err? then Some(r.error)
    else if !IsOkStatus(r.value.status) then Some(SegmentError(r.value.status, u))
    else if engine != Loaded then Some(ENGINE_NOT_READY_ERROR)
    else None
  }

  /** The engine's file system once the local playlist for `names` is written. */
  function WithLocalPlaylist(fs: map<string, FileData>, names: seq<string>, extinf: seq<Duration>)
    : map<string, FileData>
  {
    fs[LOCAL_PLAYLIST := Text(Join(LocalLines(names, extinf), '\n'))]
  }

  /** The engine's file system after a successful remux: the output added, then the segment
      files and the local playlist unlinked. */
  function AfterRemux(fs: map<string, FileData>, names: seq<string>, data: seq<byte>): map<string, FileData> {
    Unlinked(fs[OUTPUT_FILE := Bytes(data)], names) - {LOCAL_PLAYLIST}
  }

  /** The file system once the files in `names` are unlinked one after the other. */
  function Unlinked(fs: map<string, FileData>, names: seq<string>): map<string, FileData>
    decreases |names|
  {
    if |names| == 0 then fs else Unlinked(fs, names[..|names| - 1]) - {names[|names| - 1]}
  }

  /** Unlinking keeps exactly the files whose names are not in the list, with their contents. */
  lemma {:induction false} UnlinkedSpec(fs: map<string, FileData>, names: seq<string>)
    ensures forall k :: k in Unlinked(fs, names) <==> k in fs && k !in names
    ensures forall k :: k in Unlinked(fs, names) ==> Unlinked(fs, names)[k] == fs[k]
    decreases |names|
  {
    if |names| > 0 {
      var init, last := names[..|names| - 1], names[|names| - 1];
      assert names == init + [last];
      UnlinkedSpec(fs, init);
    }
  }

  /** What a file held before the unlinking does not matter once that file is removed too. */
  lemma {:induction false} UnlinkedDropsKey(fs: map<string, FileData>, key: string, v: FileData, names: seq<string>)
    ensures Unlinked(fs[key := v], names) - {key} == Unlinked(fs, names) - {key}
    decreases |names|
  {
    if |names| > 0 {
      var init, last := names[..|names| - 1], names[|names| - 1];
      UnlinkedDropsKey(fs, key, v, init);
      assert Unlinked(fs[key := v], names) - {key} == Unlinked(fs[key := v], init) - {key} - {last};
      assert Unlinked(fs, names) - {key} == Unlinked(fs, init) - {key} - {last};
    }
  }

  /** The local playlist is unlinked after the run, so what it held does not matter. */
  lemma {:induction false} LocalPlaylistUnlinked(fs: map<string, FileData>, names: seq<string>, extinf: seq<Duration>,
                                                 data: seq<byte>)
    ensures AfterRemux(WithLocalPlaylist(fs, names, extinf), names, data) == AfterRemux(fs, names, data)
  {
    var local := Text(Join(LocalLines(names, extinf), '\n'));
    assert fs[LOCAL_PLAYLIST := local][OUTPUT_FILE := Bytes(data)] == fs[OUTPUT_FILE := Bytes(data)][LOCAL_PLAYLIST := local];
    UnlinkedDropsKey(fs[OUTPUT_FILE := Bytes(data)], LOCAL_PLAYLIST, local, names);
  }
}
