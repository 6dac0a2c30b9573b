/** The job controller of the background service worker (background.js): the stored job
    record and the toolbar badge derived from it, the header-rule set switched on for a
    conversion, the handlers of the runtime messages, the table of save sessions that
    collects the worker's chunks, and the filter that picks up playlist URLs. Storage,
    the badge, the rule set, the message channel and the downloads are fields of one
    `Controller`; each handler runs to completion before the next. */
module Background {
  import opened Wrappers
  import opened Protocol
  import opened Text
  import opened Chunks
  import opened Progress

  // ---------------------------------------------------------------- header rules

  /** The two header rules of a conversion, `RULE_ID_BASE + 1` and `RULE_ID_BASE + 2`. */
  const RULE_ID_BASE := 9300
  const CONVERT_RULES: set<int> := {RULE_ID_BASE + 1, RULE_ID_BASE + 2}

  /** The ids the start-up purge removes: 2000 ids from 8000 on. */
  const PURGE_FIRST := 8000
  const PURGE_COUNT := 2000

  predicate InPurgeRange(id: int) {
    PURGE_FIRST <= id < PURGE_FIRST + PURGE_COUNT
  }

  /** `updateDynamicRules` removes the listed ids, then adds the given rules. */
  function UpdateRules(rules: set<int>, add: set<int>, remove: set<int>): set<int> {
    (rules - remove) + add
  }

  /** The rule set after `enableDNRForConvert`: both conversion rules are present and no
      other rule was added or removed. */
  function WithConvertRules(rules: set<int>): (r: set<int>)
    ensures 9301 in r && 9302 in r
    ensures forall id :: id != 9301 && id != 9302 ==> (id in r <==> id in rules)
  {
    UpdateRules(rules, CONVERT_RULES, CONVERT_RULES)
  }

  /** The rule set after `disableDNR`: neither conversion rule is present and no other
      rule changed. */
  function WithoutConvertRules(rules: set<int>): (r: set<int>)
    ensures 9301 !in r && 9302 !in r
    ensures forall id :: id != 9301 && id != 9302 ==> (id in r <==> id in rules)
  {
    UpdateRules(rules, {}, CONVERT_RULES)
  }

  /** The rule set after `purgeAnyDnr`: no id from 8000 to 9999 is left, and the ids
      outside that range are untouched. */
  function Purged(rules: set<int>): (r: set<int>)
    ensures forall id :: InPurgeRange(id) ==> id !in r
    ensures forall id :: !InPurgeRange(id) ==> (id in r <==> id in rules)
  {
    UpdateRules(rules, {}, set id | id in rules && InPurgeRange(id))
  }

  /** Disabling twice is disabling once, and disabling undoes an enable. */
  lemma {:induction false} DisableIdempotent(rules: set<int>)
    ensures WithoutConvertRules(WithoutConvertRules(rules)) == WithoutConvertRules(rules)
    ensures WithoutConvertRules(WithConvertRules(rules)) == WithoutConvertRules(rules)
  {
  }

  /** Enabling twice is enabling once. */
  lemma {:induction false} EnableIdempotent(rules: set<int>)
    ensures WithConvertRules(WithConvertRules(rules)) == WithConvertRules(rules)
  {
  }

  /** The conversion rules lie in the purged range, so a purge also disables them. */
  lemma {:induction false} PurgeDisables(rules: set<int>)
    ensures Purged(rules) == Purged(WithoutConvertRules(rules))
    ensures 9301 !in Purged(rules) && 9302 !in Purged(rules)
  {
    assert InPurgeRange(9301) && InPurgeRange(9302);
  }

  // ---------------------------------------------------------------- the job record

  /** `getJob()`: the stored job, or the idle placeholder when storage holds none. */
  function StoredJob(stored: Option<Job>): (j: Job)
    ensures stored.None? ==> j.status == Idle && j.id.None?
    ensures stored.Some? ==> j == stored.value
  {
    stored.GetOr(IdleJob)
  }

  /** The badge text `setJob` shows: the integer part of the progress, between 0 and 99,
      while running; "!" after an error; nothing otherwise. */
  function BadgeText(job: Job): (r: string)
    ensures job.status == Running ==>
      && 1 <= |r| <= 2 && AllDigits(r) && DigitsValue(r) == BadgePercent(job.progress)
    ensures job.status == Error ==> r == "!"
    ensures job.status != Running && job.status != Error ==> r == ""
  {
    if job.status == Running then
      var p := BadgePercent(job.progress);
      DigitsValueOfNatToString(p);
      NatToStringLength(p, 2);
      NatToString(p)
    else if job.status == Error then "!"
    else ""
  }

  /** A message concerns the stored job only when the job has an id and the message
      carries that same id: the idle placeholder has no id, and a message whose id is
      `null` never matches it. */
  predicate Matches(job: Job, id: Option<JobId>) {
    job.id.Some? && id == job.id
  }

  /** The number of log lines a job keeps. */
  const LOG_TAIL_LIMIT := 60

  /** `lines.slice(-60)`: the last 60 lines, or all of them when there are fewer. */
  function LogTail(lines: seq<string>): (r: seq<string>)
    ensures |r| == if |lines| <= LOG_TAIL_LIMIT then |lines| else LOG_TAIL_LIMIT
    ensures lines == lines[..|lines| - |r|] + r
  {
    if |lines| <= LOG_TAIL_LIMIT then lines else lines[|lines| - LOG_TAIL_LIMIT..]
  }

  /** Adding a line to a tail of at most 60 lines keeps the tail bounded, puts the new
      line last and drops the oldest line exactly when the tail was full. */
  lemma {:induction false} LogTailPush(tail: seq<string>, line: string)
    requires |tail| <= LOG_TAIL_LIMIT
    ensures var r := LogTail(tail + [line]);
      && |r| <= LOG_TAIL_LIMIT && r[|r| - 1] == line
      && r == (if |tail| < LOG_TAIL_LIMIT then tail else tail[1..]) + [line]
  {
    var r := LogTail(tail + [line]);
    if |tail| == LOG_TAIL_LIMIT {
      assert r == (tail + [line])[1..];
      assert (tail + [line])[1..] == tail[1..] + [line];
    }
  }

  /** The record `CONVERT_M4A` stores: a new running job for `url` at 0 percent with an
      empty log. */
  function FreshJob(id: JobId, url: string, now: int): Job {
    Job(Some(id), Some(url), Running, 0.0, [], Some(now), None, None, None)
  }

  /** The stored job after a `JOB_PROGRESS` for it: the reported percentage, and the log
      line appended to the tail when there is one. */
  function WithProgress(job: Job, progress: real, log: string): (r: Job)
    ensures r.progress == progress
    ensures log == "" ==> r.logTail == job.logTail
    ensures log != "" && |job.logTail| <= LOG_TAIL_LIMIT ==>
      r.logTail == (if |job.logTail| < LOG_TAIL_LIMIT then job.logTail else job.logTail[1..]) + [log]
    ensures r.(progress := job.progress, logTail := job.logTail) == job
  {
    if log == "" then job.(progress := progress)
    else if |job.logTail| <= LOG_TAIL_LIMIT then
      LogTailPush(job.logTail, log);
      job.(progress := progress, logTail := LogTail(job.logTail + [log]))
    else job.(progress := progress, logTail := LogTail(job.logTail + [log]))
  }

  /** The stored job after a `JOB_DONE` for it: finished with the file name on success,
      failed with the error otherwise. */
  function Done(job: Job, ok: bool, savedAs: Option<string>, failure: Option<string>, now: int): (r: Job)
    ensures r.status == Finished <==> ok
    ensures r.status == Error <==> !ok
    ensures ok ==> r.output == Some(Output(savedAs)) && r.error == job.error
    ensures !ok ==> r.error == failure && r.output == job.output
    ensures r.endedAt == Some(now) && r.id == job.id && r.url == job.url && r.logTail == job.logTail
  {
    var ended := job.(status := if ok then Finished else Error, endedAt := Some(now));
    if ok then ended.(output := Some(Output(savedAs))) else ended.(error := failure)
  }

  // ---------------------------------------------------------------- save sessions

  /** The mime type a session falls back to. */
  const DEFAULT_MIME := "audio/mp4"

  /** What the controller keeps while a file is being saved: its name and type, the
      chunks received so far in arrival order, and their total length. */
  datatype Session = Session(filename: string, mime: string, chunks: seq<seq<byte>>, bytes: nat)

  /** Every session's byte count is the length of its chunks together. */
  predicate SessionValid(s: Session) {
    s.bytes == |Flatten(s.chunks)|
  }

  predicate SessionsValid(sessions: map<JobId, Session>) {
    forall id :: id in sessions ==> SessionValid(sessions[id])
  }

  /** A file saved through `chrome.downloads.download`: name, type and content. */
  datatype Download = Download(filename: string, mime: string, data: seq<byte>)

  /** A session after `chunk` arrives: the chunk goes last, its length adds to the
      count. */
  function WithChunk(s: Session, chunk: seq<byte>): Session {
    s.(chunks := s.chunks + [chunk], bytes := s.bytes + |chunk|)
  }

  /** The session table after one message of the save protocol; other messages leave it
      alone. A start opens an empty session (an empty mime falls back to the default), a
      chunk without a session is dropped, and an end closes the session. */
  function SessionStep(sessions: map<JobId, Session>, m: Msg): map<JobId, Session> {
    match m
    case JobSaveStart(id, filename, mime) =>
      sessions[id := Session(filename, if mime == "" then DEFAULT_MIME else mime, [], 0)]
    case JobSaveChunk(id, _, chunk) =>
      if id in sessions then sessions[id := WithChunk(sessions[id], chunk)] else sessions
    case JobSaveEnd(id) => sessions - {id}
    case _ => sessions
  }

  /** Every step of the save protocol keeps each byte count equal to the length of the
      chunks, and a chunk is appended after the ones received before it. */
  lemma {:induction false} SessionStepValid(sessions: map<JobId, Session>, m: Msg)
    requires SessionsValid(sessions)
    ensures SessionsValid(SessionStep(sessions, m))
    ensures m.JobSaveChunk? && m.jobId in sessions ==>
      var s := SessionStep(sessions, m)[m.jobId];
      && Flatten(s.chunks) == Flatten(sessions[m.jobId].chunks) + m.chunk
      && s.chunks[..|s.chunks| - 1] == sessions[m.jobId].chunks
  {
    if m.JobSaveChunk? && m.jobId in sessions {
      var s := sessions[m.jobId];
      FlattenSnoc(s.chunks, m.chunk);
      assert (s.chunks + [m.chunk])[..|s.chunks|] == s.chunks;
    } else if m.JobSaveStart? {
      assert Flatten<byte>([]) == [];
    }
  }

  // ---------------------------------------------------------------- auto-detect

  const M3U8_SUFFIX := ".m3u8"

  /** `.m3u8` (in any letter case) at position `i`, followed by `?` or by the end. */
  predicate M3u8At(url: string, i: nat) {
    OccursIgnoreCaseAt(url, M3U8_SUFFIX, i) && (i + |M3U8_SUFFIX| == |url| || url[i + |M3U8_SUFFIX|] == '?')
  }

  /** `/\.(m3u8)(\?|$)/i.test(url)`. */
  predicate IsM3u8Url(url: string) {
    exists i: nat | i + |M3U8_SUFFIX| <= |url| :: M3u8At(url, i)
  }

  /** A path ending in `.m3u8` in any letter case is accepted, with or without a query. */
  lemma {:induction false} M3u8PathAccepted(path: string, query: string)
    requires |path| >= |M3U8_SUFFIX| && Lower(path[|path| - |M3U8_SUFFIX|..]) == M3U8_SUFFIX
    ensures IsM3u8Url(path)
    ensures IsM3u8Url(path + "?" + query)
  {
    var i := |path| - |M3U8_SUFFIX|;
    assert M3u8At(path, i);
    var u := path + "?" + query;
    assert u[i..i + |M3U8_SUFFIX|] == path[i..];
    assert u[i + |M3U8_SUFFIX|] == '?';
    assert M3u8At(u, i);
  }

  /** The test ignores letter case: a URL is accepted exactly when its lower-case form
      is. */
  lemma {:induction false} M3u8IgnoresCase(url: string)
    ensures IsM3u8Url(Lower(url)) <==> IsM3u8Url(url)
  {
    var low := Lower(url);
    forall i: nat | i + |M3U8_SUFFIX| <= |url| ensures M3u8At(low, i) <==> M3u8At(url, i) {
      var j := i + |M3U8_SUFFIX|;
      assert low[i..j] == Lower(url[i..j]);
      LowerIdempotent(url[i..j]);
      if j < |url| {
        assert low[j] == LowerChar(url[j]);
      }
    }
    if IsM3u8Url(url) {
      var i: nat :| i + |M3U8_SUFFIX| <= |url| && M3u8At(url, i);
      assert M3u8At(low, i);
    }
    if IsM3u8Url(low) {
      var i: nat :| i + |M3U8_SUFFIX| <= |low| && M3u8At(low, i);
      assert M3u8At(url, i);
    }
  }

  // ---------------------------------------------------------------- the controller

  class Controller {
    /** `chrome.storage.local`: the job under its key, the auto-detect switch and the
        last detected URL. */
    var stored: Option<Job>
    var enabled: bool
    var lastM3U8: Option<string>
    /** The toolbar badge text. */
    var badge: string
    /** The ids of the dynamic header rules in force. */
    var rules: set<int>
    /** `saveSessions`, keyed by job id. */
    var sessions: map<JobId, Session>
    /** Every runtime message the controller sent, oldest first. */
    var outbox: seq<Msg>
    /** Every file handed to the downloads API, oldest first. */
    var downloads: seq<Download>

    /** The save sessions count their bytes correctly and the stored log tail is
        bounded. */
    ghost predicate Valid()
      reads this`sessions, this`stored
    {
      && SessionsValid(sessions)
      && (stored.Some? ==> |stored.value.logTail| <= LOG_TAIL_LIMIT)
    }

    function CurrentJob(): Job
      reads this`stored
    {
      StoredJob(stored)
    }

    /** A controller whose storage holds no job yet, with the dynamic rules left from an
        earlier session. */
    constructor(rules: set<int>)
      ensures Valid() && stored.None? && !enabled && lastM3U8.None? && badge == ""
      ensures this.rules == rules && sessions == map[] && outbox == [] && downloads == []
    {
      stored := None;
      enabled := false;
      lastM3U8 := None;
      badge := "";
      this.rules := rules;
      sessions := map[];
      outbox := [];
      downloads := [];
    }

    /** `setJob(job)`: stores the job, shows its badge and announces it. */
    method SetJob(job: Job)
      requires |job.logTail| <= LOG_TAIL_LIMIT
      modifies this`stored, this`badge, this`outbox
      ensures stored == Some(job) && badge == BadgeText(job)
      ensures outbox == old(outbox) + [JobUpdate(job)]
    {
      stored := Some(job);
      badge := BadgeText(job);
      outbox := outbox + [JobUpdate(job)];
    }

    /** `purgeAnyDnr()`: removes every rule id from 8000 to 9999; a rejected update is
        swallowed and leaves the rules as they were. */
    method PurgeAnyDnr(rejected: bool)
      modifies this`rules
      ensures rules == if rejected then old(rules) else Purged(old(rules))
    {
      if !rejected {
        rules := Purged(rules);
      }
    }

    /** `enableDNRForConvert()`. */
    method EnableDnrForConvert()
      modifies this`rules
      ensures rules == WithConvertRules(old(rules))
    {
      rules := WithConvertRules(rules);
    }

    /** `disableDNR()`. */
    method DisableDnr()
      modifies this`rules
      ensures rules == WithoutConvertRules(old(rules))
    {
      rules := WithoutConvertRules(rules);
    }

    /** `onInstalled`: auto-detect off, no detected URL, the idle job, and a purge. */
    method OnInstalled(purgeRejected: bool)
      requires Valid()
      modifies this`enabled, this`lastM3U8, this`stored, this`badge, this`outbox, this`rules
      ensures Valid()
      ensures !enabled && lastM3U8.None? && stored == Some(IdleJob) && badge == ""
      ensures outbox == old(outbox) + [JobUpdate(IdleJob)]
      ensures rules == if purgeRejected then old(rules) else Purged(old(rules))
    {
      enabled := false;
      lastM3U8 := None;
      SetJob(IdleJob);
      PurgeAnyDnr(purgeRejected);
    }

    /** `onStartup`: a purge. */
    method OnStartup(purgeRejected: bool)
      modifies this`rules
      ensures rules == if purgeRejected then old(rules) else Purged(old(rules))
    {
      PurgeAnyDnr(purgeRejected);
    }

    /** `SET_ENABLED`. */
    method OnSetEnabled(on: bool)
      modifies this`enabled
      ensures enabled == on
    {
      enabled := on;
    }

    /** `JOB_GET`: answers with the stored job, or the idle placeholder. */
    method OnJobGet() returns (job: Job)
      ensures stored.None? ==> job == IdleJob
      ensures stored.Some? ==> job == stored.value
    {
      job := StoredJob(stored);
    }

    /** `CONVERT_M4A`: a fresh running job replaces whatever was stored (a job under way
        included), the conversion rules are switched on and the worker is told to start.
        `id` and `now` stand for `crypto.randomUUID()` and `Date.now()`. */
    method OnConvertM4a(url: string, id: JobId, now: int)
      requires Valid()
      modifies this`stored, this`badge, this`outbox, this`rules
      ensures Valid()
      ensures stored == Some(FreshJob(id, url, now)) && badge == "0"
      ensures rules == WithConvertRules(old(rules))
      ensures outbox == old(outbox) + [JobUpdate(FreshJob(id, url, now)), OffscreenConvert(id, url)]
    {
      var job := FreshJob(id, url, now);
      SetJob(job);
      EnableDnrForConvert();
      outbox := outbox + [OffscreenConvert(id, url)];
    }

    /** `JOB_CANCEL`: the worker is told to cancel and the conversion rules are switched
        off; the stored job waits for the worker's answer. */
    method OnJobCancel()
      modifies this`outbox, this`rules
      ensures outbox == old(outbox) + [OffscreenCancel]
      ensures rules == WithoutConvertRules(old(rules))
    {
      outbox := outbox + [OffscreenCancel];
      DisableDnr();
    }

    /** `JOB_PROGRESS`: ignored unless it names the stored job; otherwise the job takes
        the reported percentage and the log line. */
    method OnJobProgress(id: Option<JobId>, progress: real, log: string)
      requires Valid()
      modifies this`stored, this`badge, this`outbox
      ensures Valid()
      ensures !Matches(old(CurrentJob()), id) ==> stored == old(stored) && badge == old(badge) && outbox == old(outbox)
      ensures Matches(old(CurrentJob()), id) ==>
        && stored == Some(WithProgress(old(CurrentJob()), progress, log))
        && badge == BadgeText(WithProgress(old(CurrentJob()), progress, log))
        && outbox == old(outbox) + [JobUpdate(WithProgress(old(CurrentJob()), progress, log))]
    {
      var job := CurrentJob();
      if !Matches(job, id) {
        return;
      }
      SetJob(WithProgress(job, progress, log));
    }

    /** `JOB_CANCELED`: ignored unless it names the stored job; otherwise the job is
        canceled, the conversion rules are switched off and its save session dropped. */
    method OnJobCanceled(id: JobId, now: int)
      requires Valid()
      modifies this`stored, this`badge, this`outbox, this`rules, this`sessions
      ensures Valid()
      ensures !Matches(old(CurrentJob()), Some(id)) ==>
        && stored == old(stored) && badge == old(badge) && outbox == old(outbox)
        && rules == old(rules) && sessions == old(sessions)
      ensures Matches(old(CurrentJob()), Some(id)) ==>
        var job := old(CurrentJob()).(status := Canceled, endedAt := Some(now));
        && stored == Some(job) && badge == ""
        && outbox == old(outbox) + [JobUpdate(job)]
        && rules == WithoutConvertRules(old(rules))
        && sessions == old(sessions) - {id}
    {
      var job := CurrentJob();
      if !Matches(job, Some(id)) {
        return;
      }
      SetJob(job.(status := Canceled, endedAt := Some(now)));
      DisableDnr();
      sessions := sessions - {id};
    }

    /** `JOB_SAVE_START`: opens an empty session, replacing one of the same id. */
    method OnSaveStart(id: JobId, filename: string, mime: string)
      requires Valid()
      modifies this`sessions
      ensures Valid()
      ensures sessions == SessionStep(old(sessions), JobSaveStart(id, filename, mime))
      ensures sessions[id] == Session(filename, if mime == "" then DEFAULT_MIME else mime, [], 0)
    {
      SessionStepValid(sessions, JobSaveStart(id, filename, mime));
      sessions := sessions[id := Session(filename, if mime == "" then DEFAULT_MIME else mime, [], 0)];
    }

    /** `JOB_SAVE_CHUNK`: dropped without a session; otherwise appended to it, and the
        stored job, when it is this one, moves to between 98 and 99 percent. */
    method OnSaveChunk(id: JobId, totalBytes: nat, chunk: seq<byte>)
      requires Valid()
      modifies this`sessions, this`stored, this`badge, this`outbox
      ensures Valid()
      ensures sessions == SessionStep(old(sessions), JobSaveChunk(id, totalBytes, chunk))
      ensures id in old(sessions) ==>
        Flatten(sessions[id].chunks) == Flatten(old(sessions)[id].chunks) + chunk
      ensures id !in old(sessions) || !Matches(old(CurrentJob()), Some(id)) ==>
        stored == old(stored) && badge == old(badge) && outbox == old(outbox)
      ensures id in old(sessions) && Matches(old(CurrentJob()), Some(id)) ==>
        && stored.Some? && stored.value == old(CurrentJob()).(progress := SaveChunkPercent(sessions[id].bytes, totalBytes))
        && 98.0 <= stored.value.progress <= 99.0
        && badge == BadgeText(stored.value)
        && outbox == old(outbox) + [JobUpdate(stored.value)]
    {
      if id !in sessions {
        return;
      }
      SessionStepValid(sessions, JobSaveChunk(id, totalBytes, chunk));
      var s := WithChunk(sessions[id], chunk);
      sessions := sessions[id := s];
      ShowSaveProgress(id, s.bytes, totalBytes);
    }

    /** The part of `JOB_SAVE_CHUNK` that moves the stored job, when it is job `id`, to
        the share of the file received so far. */
    method ShowSaveProgress(id: JobId, bytes: nat, totalBytes: nat)
      requires Valid()
      modifies this`stored, this`badge, this`outbox
      ensures Valid()
      ensures !Matches(old(CurrentJob()), Some(id)) ==>
        stored == old(stored) && badge == old(badge) && outbox == old(outbox)
      ensures Matches(old(CurrentJob()), Some(id)) ==>
        && stored == Some(old(CurrentJob()).(progress := SaveChunkPercent(bytes, totalBytes)))
        && badge == BadgeText(stored.value)
        && outbox == old(outbox) + [JobUpdate(stored.value)]
    {
      var job := CurrentJob();
      if Matches(job, Some(id)) {
        SetJob(job.(progress := SaveChunkPercent(bytes, totalBytes)));
      }
    }

    /** `JOB_SAVE_END`: nothing without a session; otherwise the chunks are joined into
        one file and handed to the downloads API, the session is dropped whether that
        succeeds or throws, exactly one `JOB_DONE` reports the outcome, and the conversion
        rules are switched off. `downloadError` is what the downloads API throws, if
        anything. */
    method OnSaveEnd(id: JobId, downloadError: Option<string>)
      requires Valid()
      modifies this`sessions, this`downloads, this`outbox, this`rules
      ensures Valid()
      ensures sessions == SessionStep(old(sessions), JobSaveEnd(id))
      ensures id !in old(sessions) ==>
        outbox == old(outbox) && downloads == old(downloads) && rules == old(rules)
      ensures id in old(sessions) ==>
        var s := old(sessions)[id];
        && rules == WithoutConvertRules(old(rules))
        && (downloadError.None? ==>
              && downloads == old(downloads) + [Download(s.filename, s.mime, Flatten(s.chunks))]
              && outbox == old(outbox) + [JobDone(id, true, Some(s.filename), None)])
        && (downloadError.Some? ==>
              && downloads == old(downloads)
              && outbox == old(outbox) + [JobDone(id, false, None, downloadError)])
    {
      if id !in sessions {
        return;
      }
      var s := sessions[id];
      if downloadError.None? {
        downloads := downloads + [Download(s.filename, s.mime, Flatten(s.chunks))];
        sessions := sessions - {id};
        outbox := outbox + [JobDone(id, true, Some(s.filename), None)];
      } else {
        sessions := sessions - {id};
        outbox := outbox + [JobDone(id, false, None, downloadError)];
      }
      DisableDnr();
    }

    /** `JOB_DONE`: ignored unless it names the stored job; otherwise the job is finished
        or failed and the conversion rules are switched off. */
    method OnJobDone(id: JobId, ok: bool, savedAs: Option<string>, failure: Option<string>, now: int)
      requires Valid()
      modifies this`stored, this`badge, this`outbox, this`rules
      ensures Valid()
      ensures !Matches(old(CurrentJob()), Some(id)) ==>
        stored == old(stored) && badge == old(badge) && outbox == old(outbox) && rules == old(rules)
      ensures Matches(old(CurrentJob()), Some(id)) ==>
        var job := Done(old(CurrentJob()), ok, savedAs, failure, now);
        && stored == Some(job) && badge == (if ok then "" else "!")
        && outbox == old(outbox) + [JobUpdate(job)]
        && rules == WithoutConvertRules(old(rules))
    {
      var job := CurrentJob();
      if !Matches(job, Some(id)) {
        return;
      }
      SetJob(Done(job, ok, savedAs, failure, now));
      DisableDnr();
    }

    /** `webRequest.onCompleted`: with auto-detect on and a playlist URL, the URL is
        remembered and announced, and an idle job takes it as its URL. */
    method OnRequestCompleted(url: string)
      requires Valid()
      modifies this`lastM3U8, this`outbox, this`stored, this`badge
      ensures Valid()
      ensures !enabled || !IsM3u8Url(url) ==>
        lastM3U8 == old(lastM3U8) && outbox == old(outbox) && stored == old(stored) && badge == old(badge)
      ensures enabled && IsM3u8Url(url) ==>
        && lastM3U8 == Some(url)
        && (old(CurrentJob()).status == Idle ==>
              && stored == Some(old(CurrentJob()).(url := Some(url))) && badge == ""
              && outbox == old(outbox) + [UrlUpdate(url), JobUpdate(old(CurrentJob()).(url := Some(url)))])
        && (old(CurrentJob()).status != Idle ==>
              stored == old(stored) && badge == old(badge) && outbox == old(outbox) + [UrlUpdate(url)])
    {
      if !enabled || !IsM3u8Url(url) {
        return;
      }
      lastM3U8 := Some(url);
      outbox := outbox + [UrlUpdate(url)];
      var job := CurrentJob();
      if job.status == Idle {
        SetJob(job.(url := Some(url)));
      }
    }
  }
}
