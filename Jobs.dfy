/**
 * The video-processing route (app/api/process-video/route.ts): the in-memory
 * job map, the records each step writes into it, the encoder command a job
 * runs, and the request handler that creates jobs.
 */
module Jobs {
  import opened Wrappers
  import opened Text
  import opened Filters
  import opened Progress
  import opened Storage

  datatype Status = Processing | Complete | Error

  /** One entry of the job map, as the progress endpoint returns it. */
  datatype Job = Job(
    status: Status,
    progress: int,
    message: string,
    videoUrl: Option<string>,
    error: Option<string>)

  /**
   * The record shape every write keeps: a download URL exactly on completion,
   * an error text exactly on failure, and the progress each status carries.
   */
  predicate WellShaped(j: Job) {
    && (j.videoUrl.Some? <==> j.status == Complete)
    && (j.error.Some? <==> j.status == Error)
    && (j.status == Complete ==> j.progress == 100)
    && (j.status == Error ==> j.progress == 0)
    && (j.status == Processing ==> j.progress <= 99)
  }

  // File names derived from the job id

  /** `<jobId>_input<ext>`, where `ext` is the upload's own extension. */
  function InputFileName(jobId: string, ext: string): string {
    jobId + "_input" + ext
  }

  function OutputFileName(jobId: string): string {
    jobId + "_output.mp4"
  }

  /** The public URL under which the output file is served. */
  function VideoUrl(jobId: string): string {
    "/output/" + OutputFileName(jobId)
  }

  predicate IsHexDigit(c: char) {
    '0' <= c <= '9' || 'a' <= c <= 'f' || 'A' <= c <= 'F'
  }

  /** The characters of a version-4 UUID: hexadecimal digits and hyphens. */
  predicate UuidShaped(jobId: string) {
    forall i :: 0 <= i < |jobId| ==> IsHexDigit(jobId[i]) || jobId[i] == '-'
  }

  /** Two jobs never share an input file, whatever the extensions of their uploads. */
  lemma InputFileNameDeterminesJob(a: string, extA: string, b: string, extB: string)
    requires UuidShaped(a) && UuidShaped(b)
    requires InputFileName(a, extA) == InputFileName(b, extB)
    ensures a == b
  {
    var name := InputFileName(a, extA);
    assert '_' !in a && '_' !in b;
    assert name == a + ['_'] + ("input" + extA);
    assert name == b + ['_'] + ("input" + extB);
    IndexOfAfterFree(a, '_', "input" + extA);
    IndexOfAfterFree(b, '_', "input" + extB);
    assert a == name[..|a|] && b == name[..|b|];
  }

  /** Two jobs never share an output file or a download URL. */
  lemma VideoUrlDeterminesJob(a: string, b: string)
    requires VideoUrl(a) == VideoUrl(b)
    ensures a == b
  {
    var url := VideoUrl(a);
    assert a == url[8..|url| - 11] && b == url[8..|url| - 11];
  }

  // The records the route writes; every write replaces the whole entry.

  /** Written when the request handler creates the job. */
  function CreatedRecord(): (j: Job)
    ensures WellShaped(j) && j.status == Processing && j.progress == 0
  {
    Job(Processing, 0, StartingMessage, None, None)
  }

  /** Written on the encoder's `start` event. */
  function StartedRecord(): (j: Job)
    ensures WellShaped(j) && j.status == Processing && j.progress == 5
  {
    Job(Processing, 5, StartingMessage, None, None)
  }

  /** Written on each `progress` event: the capped percentage and its phase message. */
  function ProgressRecord(percent: Option<real>, useAI: bool): (j: Job)
    ensures WellShaped(j) && j.status == Processing
    ensures j.message == Message(PhaseOf(j.progress, useAI))
    ensures j.progress == ReportedPercent(percent)
  {
    var p := ReportedPercent(percent);
    Job(Processing, p, Message(PhaseOf(p, useAI)), None, None)
  }

  /** Written on the encoder's `end` event. */
  function CompletedRecord(jobId: string): (j: Job)
    ensures WellShaped(j) && j.status == Complete
    ensures j.videoUrl == Some(VideoUrl(jobId))
  {
    Job(Complete, 100, "Concluído!", Some(VideoUrl(jobId)), None)
  }

  /** Written on the encoder's `error` event, with the error's message. */
  function FailedRecord(reason: string): (j: Job)
    ensures WellShaped(j) && j.status == Error && j.error == Some(reason)
  {
    Job(Error, 0, "Erro no processamento", None, Some(reason))
  }

  /** Written by the failure handler attached to the background launch. */
  function LaunchFailureRecord(reason: string): (j: Job)
    ensures WellShaped(j) && j.status == Error && j.error == Some(reason)
  {
    Job(Error, 0, "Erro no processamento", None, Some(reason))
  }

  /** The launch handler writes exactly what the `error` handler wrote. */
  lemma LaunchFailureRecordIsFailedRecord(reason: string)
    ensures LaunchFailureRecord(reason) == FailedRecord(reason)
  {
  }

  // The encoder, seen as the events it emits

  datatype Event =
    | Start
    | ProgressReport(percent: Option<real>)
    | End
    | Failure(reason: string)
  {
    predicate IsTerminal() {
      End? || Failure?
    }
  }

  /** The record the handler of event `e` writes for job `jobId`. */
  function Record(jobId: string, useAI: bool, e: Event): (j: Job)
    ensures WellShaped(j)
    ensures j.status == Complete <==> e.End?
    ensures j.status == Error <==> e.Failure?
    ensures e.End? ==> j.videoUrl == Some(VideoUrl(jobId))
    ensures e.Failure? ==> j.error == Some(e.reason)
  {
    match e
    case Start => StartedRecord()
    case ProgressReport(percent) => ProgressRecord(percent, useAI)
    case End => CompletedRecord(jobId)
    case Failure(reason) => FailedRecord(reason)
  }

  /** The job map after the handlers have run, in order, for each of `events`. */
  function Replay(jobs: map<string, Job>, jobId: string, useAI: bool, events: seq<Event>): map<string, Job>
    decreases |events|
  {
    if events == [] then jobs
    else Replay(jobs[jobId := Record(jobId, useAI, events[0])], jobId, useAI, events[1..])
  }

  /**
   * Since every write replaces the whole record, a run leaves the job with
   * the record of its last event, whatever came before, and leaves every
   * other job alone.
   */
  lemma {:induction false} ReplayLast(jobs: map<string, Job>, jobId: string, useAI: bool, events: seq<Event>)
    requires events != []
    ensures Replay(jobs, jobId, useAI, events) == jobs[jobId := Record(jobId, useAI, events[|events| - 1])]
    decreases |events|
  {
    if |events| > 1 {
      var first := jobs[jobId := Record(jobId, useAI, events[0])];
      ReplayLast(first, jobId, useAI, events[1..]);
      assert events[1..][|events[1..]| - 1] == events[|events| - 1];
    }
  }

  /** How the promise around the encoder ends. */
  datatype Settlement = Pending | Resolved | Rejected(reason: string)

  /** The first terminal event settles the promise; later ones cannot change it. */
  function Settle(events: seq<Event>): Settlement
    decreases |events|
  {
    if events == [] then Pending
    else match events[0]
      case End => Resolved
      case Failure(reason) => Rejected(reason)
      case _ => Settle(events[1..])
  }

  function SettleBy(e: Event): Settlement {
    match e
    case End => Resolved
    case Failure(reason) => Rejected(reason)
    case _ => Pending
  }

  lemma {:induction false} SettleSnoc(events: seq<Event>, e: Event)
    ensures Settle(events + [e]) == if Settle(events) != Pending then Settle(events) else SettleBy(e)
    decreases |events|
  {
    if events != [] {
      assert (events + [e])[1..] == events[1..] + [e];
      SettleSnoc(events[1..], e);
    }
  }

  /**
   * What the encoder promises: at most one terminal event, and nothing after it.
   * A run with no terminal event never settles.
   */
  predicate EngineContract(events: seq<Event>) {
    forall i :: 0 <= i < |events| - 1 ==> !events[i].IsTerminal()
  }

  /** Under the encoder's contract, the run settles by its last event. */
  lemma {:induction false} SettleByLast(events: seq<Event>)
    requires EngineContract(events) && events != []
    ensures Settle(events) == SettleBy(events[|events| - 1])
    decreases |events|
  {
    if |events| > 1 {
      assert !events[0].IsTerminal();
      var rest := events[1..];
      assert EngineContract(rest) by {
        forall i | 0 <= i < |rest| - 1 ensures !rest[i].IsTerminal() {
          assert rest[i] == events[i + 1];
        }
      }
      SettleByLast(rest);
    }
  }

  /** How the background launch goes: it fails before the encoder runs, or the encoder emits `events`. */
  datatype EngineRun = LaunchFailed(reason: string) | Ran(events: seq<Event>)

  /**
   * The job map after the handlers have run for each of `events`, when
   * `catching` says the launch's failure handler is attached and the promise
   * has not settled yet. The failure handler runs as soon as the promise
   * rejects, so its write comes right after the first terminal event when
   * that is a failure, before the encoder's next callback.
   */
  function ReplayCaught(jobs: map<string, Job>, jobId: string, useAI: bool, events: seq<Event>, catching: bool)
    : map<string, Job>
    decreases |events|
  {
    if events == [] then jobs
    else
      var e := events[0];
      var handled := jobs[jobId := Record(jobId, useAI, e)];
      var caught := if catching && e.Failure? then handled[jobId := LaunchFailureRecord(e.reason)] else handled;
      ReplayCaught(caught, jobId, useAI, events[1..], catching && !e.IsTerminal())
  }

  /**
   * The job map once the background launch is over: a launch that fails
   * before the encoder runs gets the failure handler's record; otherwise the
   * encoder's handlers run for each event, with the failure handler's write
   * right after the event that rejects the promise.
   */
  function AfterLaunch(jobs: map<string, Job>, jobId: string, useAI: bool, run: EngineRun): map<string, Job> {
    match run
    case LaunchFailed(reason) => jobs[jobId := LaunchFailureRecord(reason)]
    case Ran(events) => ReplayCaught(jobs, jobId, useAI, events, true)
  }

  /**
   * On an encoder failure the launch handler writes the record the `error`
   * handler has just written, so the job map ends as the handlers alone
   * leave it, whatever the events.
   */
  lemma {:induction false} FailureRewriteIsIdempotent(jobs: map<string, Job>, jobId: string, useAI: bool,
                                                      events: seq<Event>, catching: bool)
    ensures ReplayCaught(jobs, jobId, useAI, events, catching) == Replay(jobs, jobId, useAI, events)
    decreases |events|
  {
    if events != [] {
      var e := events[0];
      var handled := jobs[jobId := Record(jobId, useAI, e)];
      if e.Failure? {
        LaunchFailureRecordIsFailedRecord(e.reason);
        assert handled[jobId := LaunchFailureRecord(e.reason)] == handled;
      }
      FailureRewriteIsIdempotent(handled, jobId, useAI, events[1..], catching && !e.IsTerminal());
    }
  }

  /**
   * A launch leaves the job with the record of the encoder's last event, or
   * failed with the launch's message, and touches no other job.
   */
  lemma LaunchOutcome(jobs: map<string, Job>, jobId: string, useAI: bool, run: EngineRun)
    requires run.Ran? ==> run.events != []
    ensures var after := AfterLaunch(jobs, jobId, useAI, run);
      && jobId in after
      && after.Keys == jobs.Keys + {jobId}
      && (forall other :: other in jobs && other != jobId ==> after[other] == jobs[other])
      && (run.LaunchFailed? ==> after[jobId] == FailedRecord(run.reason))
      && (run.Ran? && run.events[|run.events| - 1] == End ==> after[jobId] == CompletedRecord(jobId))
      && (run.Ran? && run.events[|run.events| - 1].Failure? ==>
            after[jobId] == FailedRecord(run.events[|run.events| - 1].reason))
      && (run.Ran? && !run.events[|run.events| - 1].IsTerminal() ==> after[jobId].status == Processing)
  {
    if run.Ran? {
      FailureRewriteIsIdempotent(jobs, jobId, useAI, run.events, true);
      ReplayLast(jobs, jobId, useAI, run.events);
    }
  }

  /**
   * An `end` that follows a failure still completes the job: the failure
   * handler has already run, and nothing guards the record afterwards.
   */
  lemma EndAfterFailureCompletes(jobId: string)
    ensures var after := AfterLaunch(map[], jobId, false, Ran([Start, Failure("a"), End]));
      jobId in after && after[jobId] == CompletedRecord(jobId)
  {
    LaunchOutcome(map[], jobId, false, Ran([Start, Failure("a"), End]));
  }

  /** Every record a launch leaves behind has the well-formed shape. */
  lemma AfterLaunchWellShaped(jobs: map<string, Job>, jobId: string, useAI: bool, run: EngineRun)
    requires forall id :: id in jobs ==> WellShaped(jobs[id])
    ensures var after := AfterLaunch(jobs, jobId, useAI, run);
      forall id :: id in after ==> WellShaped(after[id])
  {
    if run.Ran? && run.events != [] {
      FailureRewriteIsIdempotent(jobs, jobId, useAI, run.events, true);
      ReplayLast(jobs, jobId, useAI, run.events);
    }
  }

  /**
   * Nothing keeps the recorded progress from falling: a later, lower report
   * overwrites a higher one.
   */
  lemma ProgressMayFall(jobId: string)
    ensures var first := [Start, ProgressReport(Some(50.0))];
      var before := Replay(map[], jobId, false, first);
      var after := Replay(map[], jobId, false, first + [ProgressReport(Some(10.0))]);
      && jobId in before && before[jobId].progress == 50
      && jobId in after && after[jobId].progress == 10
  {
    var first := [Start, ProgressReport(Some(50.0))];
    ReplayLast(map[], jobId, false, first);
    ReplayLast(map[], jobId, false, first + [ProgressReport(Some(10.0))]);
  }

  // The encoder command

  /** The fluent-ffmpeg command a job runs. */
  datatype Command = Command(
    input: Path,
    videoFilters: Option<string>,
    videoBitrate: string,
    outputOptions: seq<string>,
    output: Path)

  /**
   * The job's command: its filter chain, the encoder settings passed through,
   * the output named after the job. The completion record's download URL
   * names exactly the file the command writes, and the bitrate and preset
   * never enter the filter chain.
   */
  function EncoderCommand(jobId: string, input: Path, s: Settings): (c: Command)
    ensures c.videoFilters == VideoFilterArgument(s)
    ensures c.output == Path(Output, OutputFileName(jobId))
    ensures c.videoBitrate == s.bitrate && c.input == input
    ensures c.output.dir == Output && CompletedRecord(jobId).videoUrl == Some("/output/" + c.output.name)
    ensures forall b, p :: VideoFilterArgument(s.(bitrate := b, preset := p)) == c.videoFilters
  {
    Command(input, VideoFilterArgument(s), s.bitrate,
            ["-preset " + s.preset, "-movflags +faststart"],
            Path(Output, OutputFileName(jobId)))
  }

  /** Builds the command as the route does, pushing filters and joining them when there are any. */
  method BuildCommand(jobId: string, input: Path, s: Settings) returns (c: Command)
    ensures c == EncoderCommand(jobId, input, s)
  {
    var filters := BuildFilters(s);
    var videoFilters := None;
    if |filters| > 0 {
      videoFilters := Some(Chain(filters));
    }
    c := Command(input, videoFilters, s.bitrate,
                 ["-preset " + s.preset, "-movflags +faststart"],
                 Path(Output, OutputFileName(jobId)));
  }

  /** The job map of the route, shared with the progress and download routes. */
  class JobStore {
    var jobs: map<string, Job>

    ghost predicate Valid()
      reads this
    {
      forall id :: id in jobs ==> WellShaped(jobs[id])
    }

    constructor ()
      ensures Valid() && jobs == map[]
    {
      jobs := map[];
    }

    method Create(jobId: string)
      requires Valid()
      modifies this
      ensures Valid() && jobs == old(jobs)[jobId := CreatedRecord()]
    {
      jobs := jobs[jobId := CreatedRecord()];
    }

    method OnStart(jobId: string)
      requires Valid()
      modifies this
      ensures Valid() && jobs == old(jobs)[jobId := StartedRecord()]
    {
      jobs := jobs[jobId := StartedRecord()];
    }

    method OnProgress(jobId: string, percent: Option<real>, useAI: bool)
      requires Valid()
      modifies this
      ensures Valid() && jobs == old(jobs)[jobId := ProgressRecord(percent, useAI)]
    {
      var p := ReportedPercent(percent);
      var message := Message(PhaseOf(p, useAI));
      jobs := jobs[jobId := Job(Processing, p, message, None, None)];
    }

    method OnEnd(jobId: string)
      requires Valid()
      modifies this
      ensures Valid() && jobs == old(jobs)[jobId := CompletedRecord(jobId)]
    {
      jobs := jobs[jobId := CompletedRecord(jobId)];
    }

    method OnError(jobId: string, reason: string)
      requires Valid()
      modifies this
      ensures Valid() && jobs == old(jobs)[jobId := FailedRecord(reason)]
    {
      jobs := jobs[jobId := FailedRecord(reason)];
    }

    method OnLaunchFailure(jobId: string, reason: string)
      requires Valid()
      modifies this
      ensures Valid() && jobs == old(jobs)[jobId := LaunchFailureRecord(reason)]
    {
      jobs := jobs[jobId := LaunchFailureRecord(reason)];
    }

    /** Runs the handler the encoder's event `e` is delivered to. */
    method Handle(jobId: string, useAI: bool, e: Event)
      requires Valid()
      modifies this
      ensures Valid() && jobs == old(jobs)[jobId := Record(jobId, useAI, e)]
    {
      match e
      case Start => OnStart(jobId);
      case ProgressReport(percent) => OnProgress(jobId, percent, useAI);
      case End => OnEnd(jobId);
      case Failure(reason) => OnError(jobId, reason);
    }
  }

  /**
   * `processVideo`: builds the filter list and the command, then lets the
   * encoder's handlers write into the job map, one event at a time. The result
   * is the command (None when the launch failed before it was built) and how
   * the promise settled. `catching` says whether the caller has attached a
   * failure handler to the promise; it runs as soon as the promise rejects,
   * before the encoder's next callback.
   */
  method ProcessVideo(store: JobStore, jobId: string, input: Path, s: Settings, run: EngineRun, catching: bool)
    returns (command: Option<Command>, settled: Settlement)
    requires store.Valid()
    modifies store
    ensures store.Valid()
    ensures run.LaunchFailed? ==>
      && command == None && settled == Rejected(run.reason)
      && store.jobs == if catching then old(store.jobs)[jobId := LaunchFailureRecord(run.reason)] else old(store.jobs)
    ensures run.Ran? ==>
      && command == Some(EncoderCommand(jobId, input, s))
      && settled == Settle(run.events)
      && store.jobs == ReplayCaught(old(store.jobs), jobId, s.useAI, run.events, catching)
  {
    if run.LaunchFailed? {
      if catching {
        store.OnLaunchFailure(jobId, run.reason);
      }
      return None, Rejected(run.reason);
    }
    var c := BuildCommand(jobId, input, s);
    command := Some(c);
    settled := Deliver(store, jobId, s.useAI, run.events, catching);
  }

  /**
   * Delivers the encoder's events, in order, to the handlers of job `jobId`,
   * and runs the failure handler, when `catching`, as soon as the promise
   * rejects.
   */
  method Deliver(store: JobStore, jobId: string, useAI: bool, events: seq<Event>, catching: bool)
    returns (settled: Settlement)
    requires store.Valid()
    modifies store
    ensures store.Valid()
    ensures settled == Settle(events)
    ensures store.jobs == ReplayCaught(old(store.jobs), jobId, useAI, events, catching)
  {
    ghost var goal := ReplayCaught(store.jobs, jobId, useAI, events, catching);
    settled := Pending;
    var i := 0;
    while i < |events|
      invariant 0 <= i <= |events|
      invariant store.Valid()
      invariant settled == Settle(events[..i])
      invariant ReplayCaught(store.jobs, jobId, useAI, events[i..], catching && settled == Pending) == goal
    {
      var e := events[i];
      assert events[i..][1..] == events[i + 1..];
      store.Handle(jobId, useAI, e);
      SettleSnoc(events[..i], e);
      assert events[..i + 1] == events[..i] + [e];
      if settled == Pending {
        settled := SettleBy(e);
        if catching && settled.Rejected? {
          store.OnLaunchFailure(jobId, settled.reason);
        }
      }
      i := i + 1;
    }
    assert events[..i] == events;
  }

  /** The background launch: `processVideo` with its failure handler attached. */
  method Launch(store: JobStore, jobId: string, input: Path, s: Settings, run: EngineRun)
    requires store.Valid()
    modifies store
    ensures store.Valid()
    ensures store.jobs == AfterLaunch(old(store.jobs), jobId, s.useAI, run)
  {
    var _, _ := ProcessVideo(store, jobId, input, s, run, true);
  }

  // The request handler

  /** The uploaded file; `extension` is `path.extname` of its name. */
  datatype Upload = Upload(name: string, extension: string)

  /**
   * The form fields of a request: the video, if any, and the settings, where
   * None stands for a `settings` field that `JSON.parse` rejects.
   */
  datatype Request = Request(video: Option<Upload>, settings: Option<Settings>)

  datatype Response = Accepted(jobId: string) | BadRequest | ServerError

  function StatusCode(r: Response): nat {
    match r
    case Accepted(_) => 200
    case BadRequest => 400
    case ServerError => 500
  }

  /**
   * The response to a request, given whether creating the directories and
   * writing the upload succeed. The settings are parsed before the video is
   * looked at, so malformed settings give 500 even without a video.
   */
  function SubmitOutcome(req: Request, storageOk: bool, jobId: string): (r: Response)
    ensures r.Accepted? <==> req.settings.Some? && req.video.Some? && storageOk
    ensures r.Accepted? ==> r.jobId == jobId
    ensures StatusCode(r) == 400 <==> req.settings.Some? && req.video.None?
    ensures req.settings.None? ==> StatusCode(r) == 500
  {
    if req.settings.None? then ServerError
    else if req.video.None? then BadRequest
    else if !storageOk then ServerError
    else Accepted(jobId)
  }

  /** Where the upload of job `jobId` is stored. */
  function InputPath(jobId: string, upload: Upload): Path {
    Path(Uploads, InputFileName(jobId, upload.extension))
  }

  /**
   * `POST`: stores the upload and creates the job. `jobId` is the fresh UUID,
   * `now` the time of the write and `storageOk` whether the directories and
   * the file could be written. The job exists only once the upload is on disk.
   */
  method Submit(store: JobStore, fs: FileSystem, req: Request, jobId: string, now: int, storageOk: bool)
    returns (r: Response)
    requires store.Valid()
    modifies store, fs
    ensures store.Valid()
    ensures fs.undeletable == old(fs.undeletable)
    ensures r == SubmitOutcome(req, storageOk, jobId)
    ensures r.Accepted? ==>
      && fs.files == old(fs.files)[InputPath(jobId, req.video.value) := now]
      && store.jobs == old(store.jobs)[jobId := CreatedRecord()]
    ensures !r.Accepted? ==> fs.files == old(fs.files) && store.jobs == old(store.jobs)
  {
    if req.settings.None? {
      return ServerError;
    }
    if req.video.None? {
      return BadRequest;
    }
    if !storageOk {
      return ServerError;
    }
    fs.WriteFile(InputPath(jobId, req.video.value), now);
    store.Create(jobId);
    r := Accepted(jobId);
  }
}
