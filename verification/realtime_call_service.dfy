/**
 * `RealtimeCallService`: the foreground service that opens a transcription socket, records
 * microphone audio and forwards it, raises an alert on a "phishing_alert" message, and tears
 * everything down in `onDestroy`. Its effects on the platform are recorded in a log.
 */
module RealtimeCallService {
  import opened Wrappers
  import opened Bytes
  import opened Text
  import ApiClient

  /** Android's `Service.START_STICKY`. */
  const StartSticky := 1

  /** The id passed to `startForeground`. */
  const ForegroundId := 1

  /** Recording sample rate in Hz. */
  const SampleRate := 16000

  /** The socket path of `startRecordingAndStreaming`. */
  const StreamPath := "ws/transcribe/stream"

  /** The socket URL the service connects to, `wsUrl(StreamPath)` (see `StreamUrlIsWsUrl`). */
  const StreamUrl := "wss://" + ApiClient.Host + "/" + StreamPath

  /** `StreamUrl` is what `ApiClient.wsUrl` derives for the stream path from the configured base. */
  lemma StreamUrlIsWsUrl()
    ensures StreamUrl == ApiClient.WsUrl(StreamPath)
  {
    assert StreamPath[0] == 'w';
  }

  /** The substring of an inbound text that raises an alert. */
  const AlertMarker := "phishing_alert"

  const AlertTitle := "⚠️ 보이스피싱 경고"
  const AlertBody := "통화 내용에서 위험 신호가 감지되었습니다."

  /** The close code and reason of `onDestroy`; 1000 is normal closure (section 7.4.1 of RFC 6455). */
  const CloseCode := 1000
  const CloseReason := "통화 종료"

  datatype AudioSource = Mic
  datatype ChannelConfig = InMono | InStereo
  datatype AudioEncoding = Pcm16Bit | Pcm8Bit | PcmFloat

  /** The arguments `AudioRecord` is constructed with. */
  datatype RecorderConfig = RecorderConfig(
    source: AudioSource, sampleRate: int, channel: ChannelConfig, encoding: AudioEncoding, bufferSize: int)

  /** What the service asks of the platform, in order. */
  datatype Effect =
    | ForegroundStarted(id: int)
    | SocketOpened(url: string)
    | SelfStopped
    | RecorderCreated(config: RecorderConfig)
    | RecordingStarted
    | ChunkSent(chunk: seq<byte>)
    | AlertShown(title: string, body: string)
    | RecorderStopped
    | RecorderReleased
    | JobCancelled
    | SocketClosed(code: int, reason: string)

  /** The streaming coroutine `recordJob`. */
  datatype Job = NoJob | Running | Cancelled

  /** An `AudioRecord`: its configuration and whether it is recording or released. */
  datatype Recorder = Recorder(config: RecorderConfig, recording: bool, released: bool)

  /**
   * One instance's fields (`webSocket`, `audioRecord`, `recordJob`) and the jobs a later start of
   * the same instance overwrote in `recordJob`: their loops read `audioRecord` afresh, so they
   * run while it records. Then what outlives every reference: open sockets and unreleased
   * recorders no field holds (`stray…`), and jobs that go on looping after their instance ended.
   * The log runs across instances; `crashed` records an exception that escaped
   * `onStartCommand` on the main thread, which ends the process.
   */
  datatype Service = Service(
    socket: bool, recorder: Option<Recorder>, job: Job, overwrittenJobs: nat, log: seq<Effect>,
    straySockets: nat, strayRecorders: seq<Recorder>, strayJobs: nat, crashed: bool)

  const Initial := Service(false, None, NoJob, 0, [], 0, [], 0, false)

  /** The streaming loop runs while its job is alive and the recorder is recording. */
  predicate Streaming(s: Service) {
    s.job == Running && s.recorder.Some? && s.recorder.value.recording
  }

  /** The recorder `audioRecord` holds, as a list of at most one. */
  function Held(s: Service): seq<Recorder> {
    if s.recorder.Some? then [s.recorder.value] else []
  }

  /**
   * The `AudioRecord` constructor's check of its buffer size (Android's `audioBuffSizeCheck`):
   * at least one byte and whole frames, a frame of 16-bit mono being 2 bytes. The error codes
   * -1 and -2 that `getMinBufferSize` returns fail it.
   */
  predicate AcceptedBufferSize(n: int) {
    n >= 1 && n % 2 == 0
  }

  /** How a call ended: normally, or by an exception that escaped it. */
  datatype Completion = Normal(service: Service) | Thrown(service: Service)

  /** The result of `onStartCommand`: the returned start mode, or the exception that escaped it. */
  datatype Started = Returned(service: Service, mode: int) | Threw(service: Service)

  /**
   * `startRecordingAndStreaming()`: the socket is opened first and replaces `webSocket`; only
   * then is RECORD_AUDIO checked. Without it the service stops itself. With it the recorder is
   * built with the minimum buffer size, which throws `IllegalArgumentException` for a size the
   * constructor rejects; otherwise it replaces `audioRecord`, is started, and a new streaming job
   * replaces `recordJob`.
   */
  function StartStreaming(s: Service, permitted: bool, minBufferSize: int): (c: Completion)
    ensures |c.service.log| > |s.log| && c.service.log[..|s.log|] == s.log
    ensures c.service.log[|s.log|] == SocketOpened(StreamUrl) && c.service.socket
    ensures c.service.straySockets == s.straySockets + (if s.socket then 1 else 0)
    ensures c.Thrown? <==> permitted && !AcceptedBufferSize(minBufferSize)
    ensures !permitted ==> c.service.log == s.log + [SocketOpened(StreamUrl), SelfStopped]
    ensures c.Thrown? ==> c.service.log == s.log + [SocketOpened(StreamUrl)]
    ensures !permitted || c.Thrown? ==>
      c.service.recorder == s.recorder && c.service.job == s.job &&
      c.service.strayRecorders == s.strayRecorders && c.service.overwrittenJobs == s.overwrittenJobs
    ensures permitted && AcceptedBufferSize(minBufferSize) ==>
      Streaming(c.service) && c.service.recorder.value.config == RecorderConfig(Mic, 16000, InMono, Pcm16Bit, minBufferSize)
    ensures permitted && AcceptedBufferSize(minBufferSize) ==>
      c.service.strayRecorders == s.strayRecorders + Held(s) &&
      c.service.overwrittenJobs == s.overwrittenJobs + (if s.job == Running then 1 else 0)
    ensures c.service.strayJobs == s.strayJobs
    ensures forall e | e in c.service.log[|s.log|..] :: !e.ChunkSent? && !e.AlertShown?
    ensures c.service.crashed == s.crashed
  {
    var withSocket := s.(socket := true, straySockets := s.straySockets + (if s.socket then 1 else 0),
                         log := s.log + [SocketOpened(StreamUrl)]);
    if !permitted then
      Normal(withSocket.(log := withSocket.log + [SelfStopped]))
    else if !AcceptedBufferSize(minBufferSize) then
      Thrown(withSocket)
    else
      var config := RecorderConfig(Mic, SampleRate, InMono, Pcm16Bit, minBufferSize);
      Normal(withSocket.(recorder := Some(Recorder(config, true, false)), job := Running,
                         strayRecorders := s.strayRecorders + Held(s),
                         overwrittenJobs := s.overwrittenJobs + (if s.job == Running then 1 else 0),
                         log := withSocket.log + [RecorderCreated(config), RecordingStarted]))
  }

  /**
   * `onStartCommand`: foreground first, then streaming; `START_STICKY` unless the recorder's
   * constructor threw, in which case nothing catches the exception and no mode is returned.
   */
  function OnStartCommand(s: Service, permitted: bool, minBufferSize: int): (r: Started)
    ensures r.Returned? <==> !permitted || AcceptedBufferSize(minBufferSize)
    ensures r.Returned? ==> r.mode == StartSticky
    ensures |r.service.log| >= |s.log| + 2
    ensures r.service.log[..|s.log|] == s.log
    ensures r.service.log[|s.log|] == ForegroundStarted(ForegroundId)
    ensures r.service.log[|s.log| + 1] == SocketOpened(StreamUrl)
    ensures !permitted ==> SelfStopped in r.service.log[|s.log|..]
    ensures !permitted || r.Threw? ==> forall e | e in r.service.log[|s.log|..] :: !e.RecorderCreated?
    ensures r.Threw? ==> r.service.recorder == s.recorder && r.service.job == s.job
  {
    var fg := s.(log := s.log + [ForegroundStarted(ForegroundId)]);
    var c := StartStreaming(fg, permitted, minBufferSize);
    var s' := c.service;
    assert s'.log[..|fg.log|] == fg.log;
    assert s'.log[..|s.log|] == fg.log[..|s.log|] == s.log;
    assert !permitted ==> s'.log[|s.log|..] == [ForegroundStarted(ForegroundId), SocketOpened(StreamUrl), SelfStopped];
    assert c.Thrown? ==> s'.log[|s.log|..] == [ForegroundStarted(ForegroundId), SocketOpened(StreamUrl)];
    if c.Thrown? then Threw(s') else Returned(s', StartSticky)
  }

  /**
   * One iteration of the streaming loop: `read` returned `bytesRead` into `buffer`.
   * A positive count forwards the first `bytesRead` bytes; slicing past the buffer or a
   * failing send throws inside the `try` and is swallowed, so the loop goes on.
   */
  function OnRead(s: Service, bytesRead: int, buffer: seq<byte>, sendFails: bool): (s': Service)
    ensures s'.socket == s.socket && s'.recorder == s.recorder && s'.job == s.job
    ensures Streaming(s) && 0 < bytesRead <= |buffer| && !sendFails <==> s'.log != s.log
    ensures s'.log != s.log ==> s'.log == s.log + [ChunkSent(buffer[..bytesRead])]
    ensures s'.log != s.log ==>
      |s'.log[|s.log|].chunk| == bytesRead && s'.log[|s.log|].chunk + buffer[bytesRead..] == buffer
  {
    if Streaming(s) && bytesRead > 0 then
      if bytesRead <= |buffer| && !sendFails then
        assert buffer[..bytesRead] + buffer[bytesRead..] == buffer;
        s.(log := s.log + [ChunkSent(buffer[..bytesRead])])
      else s
    else s
  }

  /** The listener's `onMessage(text)`: an alert for any text containing "phishing_alert". */
  function OnInbound(s: Service, text: string): (s': Service)
    ensures Contains(text, AlertMarker) ==> s'.log == s.log + [AlertShown(AlertTitle, AlertBody)]
    ensures !Contains(text, AlertMarker) ==> s'.log == s.log
    ensures s'.socket == s.socket && s'.recorder == s.recorder && s'.job == s.job
  {
    if Contains(text, AlertMarker) then s.(log := s.log + [AlertShown(AlertTitle, AlertBody)]) else s
  }

  /** The teardown calls of `onDestroy`, in source order. */
  datatype Teardown = StopRecorder | ReleaseRecorder | CancelJob | CloseSocket

  /** The teardown calls of `onDestroy`, in source order. */
  const TeardownOrder := [StopRecorder, ReleaseRecorder, CancelJob, CloseSocket]

  /** Position of a teardown call in `onDestroy`. */
  function Rank(t: Teardown): nat {
    match t
    case StopRecorder => 0
    case ReleaseRecorder => 1
    case CancelJob => 2
    case CloseSocket => 3
  }

  /** The effect a teardown call logs. */
  function EffectOf(t: Teardown): Effect {
    match t
    case StopRecorder => RecorderStopped
    case ReleaseRecorder => RecorderReleased
    case CancelJob => JobCancelled
    case CloseSocket => SocketClosed(CloseCode, CloseReason)
  }

  /** The receiver of a teardown call is non-null, so the safe call `?.` is made. */
  predicate Present(s: Service, t: Teardown) {
    match t
    case StopRecorder => s.recorder.Some?
    case ReleaseRecorder => s.recorder.Some?
    case CancelJob => s.job != NoJob
    case CloseSocket => s.socket
  }

  /** The state change of one teardown call. */
  function Apply(s: Service, t: Teardown): Service
    requires Present(s, t)
  {
    match t
    case StopRecorder => s.(recorder := Some(s.recorder.value.(recording := false)), log := s.log + [RecorderStopped])
    case ReleaseRecorder => s.(recorder := Some(s.recorder.value.(released := true)), log := s.log + [RecorderReleased])
    case CancelJob => s.(job := Cancelled, log := s.log + [JobCancelled])
    case CloseSocket => s.(log := s.log + [SocketClosed(CloseCode, CloseReason)])
  }

  /**
   * The teardown calls `ts`, made one after the other inside one `try`. A call on a null
   * receiver is skipped; the call at position `failAt` throws, which skips every later call.
   */
  function RunTeardown(s: Service, ts: seq<Teardown>, failAt: Option<nat>): Service
    decreases |ts|
  {
    if ts == [] then s
    else if !Present(s, ts[0]) then RunTeardown(s, ts[1..], failAt)
    else if failAt == Some(Rank(ts[0])) then s
    else RunTeardown(Apply(s, ts[0]), ts[1..], failAt)
  }

  /**
   * The calls of `ts` that are made, read off the initial state alone: every call whose
   * receiver is present, in order, up to the one that throws.
   */
  function Plan(s: Service, ts: seq<Teardown>, failAt: Option<nat>): (p: seq<Teardown>)
    decreases |ts|
  {
    if ts == [] then []
    else if !Present(s, ts[0]) then Plan(s, ts[1..], failAt)
    else if failAt == Some(Rank(ts[0])) then []
    else [ts[0]] + Plan(s, ts[1..], failAt)
  }

  /** The effects a sequence of teardown calls logs. */
  function Effects(p: seq<Teardown>): (r: seq<Effect>)
    ensures |r| == |p|
  {
    if p == [] then [] else [EffectOf(p[0])] + Effects(p[1..])
  }

  /** A teardown call leaves the receivers of the others as they were. */
  lemma ApplyKeepsPresence(s: Service, t: Teardown, u: Teardown)
    requires Present(s, t)
    ensures Present(Apply(s, t), u) == Present(s, u)
  {
  }

  /** The plan of a state is also the plan after any of its calls has been made. */
  lemma {:induction false} PlanAfterApply(s: Service, t: Teardown, ts: seq<Teardown>, failAt: Option<nat>)
    requires Present(s, t)
    ensures Plan(Apply(s, t), ts, failAt) == Plan(s, ts, failAt)
  {
    if ts != [] {
      ApplyKeepsPresence(s, t, ts[0]);
      PlanAfterApply(s, t, ts[1..], failAt);
    }
  }

  /** A teardown call logs its own effect. */
  lemma ApplyLogs(s: Service, t: Teardown)
    requires Present(s, t)
    ensures Apply(s, t).log == s.log + [EffectOf(t)]
  {
  }

  /** Logging one more call's effect extends the effects of the calls after it. */
  lemma EffectsCons(log: seq<Effect>, t: Teardown, rest: seq<Teardown>)
    ensures log + [EffectOf(t)] + Effects(rest) == log + Effects([t] + rest)
  {
    assert ([t] + rest)[1..] == rest;
  }

  /** Teardown logs exactly the effects of its plan. */
  lemma {:induction false} TeardownFollowsPlan(s: Service, ts: seq<Teardown>, failAt: Option<nat>)
    ensures RunTeardown(s, ts, failAt).log == s.log + Effects(Plan(s, ts, failAt))
    decreases |ts|
  {
    if ts != [] {
      var t := ts[0];
      if !Present(s, t) {
        TeardownFollowsPlan(s, ts[1..], failAt);
      } else if failAt != Some(Rank(t)) {
        var s1 := Apply(s, t);
        TeardownFollowsPlan(s1, ts[1..], failAt);
        PlanAfterApply(s, t, ts[1..], failAt);
        ApplyLogs(s, t);
        EffectsCons(s.log, t, Plan(s, ts[1..], failAt));
      }
    }
  }

  /** Every call in the plan is one of `ts`, has its receiver, and is not the one that throws. */
  lemma {:induction false} PlanMembers(s: Service, ts: seq<Teardown>, failAt: Option<nat>)
    ensures forall k | 0 <= k < |Plan(s, ts, failAt)| ::
      Plan(s, ts, failAt)[k] in ts && Present(s, Plan(s, ts, failAt)[k]) && failAt != Some(Rank(Plan(s, ts, failAt)[k]))
    decreases |ts|
  {
    if ts != [] {
      PlanMembers(s, ts[1..], failAt);
      var p := Plan(s, ts, failAt);
      var rest := Plan(s, ts[1..], failAt);
      forall k | 0 <= k < |p| ensures p[k] in ts && Present(s, p[k]) && failAt != Some(Rank(p[k])) {
        if p != rest {
          assert p == [ts[0]] + rest;
          if k > 0 {
            assert p[k] == rest[k - 1];
          }
        }
        assert p[k] in ts[1..] ==> p[k] in ts;
      }
    }
  }

  /** Of an increasing list of calls, the plan keeps the order. */
  lemma {:induction false} PlanOrdered(s: Service, ts: seq<Teardown>, failAt: Option<nat>)
    requires forall k, l | 0 <= k < l < |ts| :: Rank(ts[k]) < Rank(ts[l])
    ensures forall k, l | 0 <= k < l < |Plan(s, ts, failAt)| ::
      Rank(Plan(s, ts, failAt)[k]) < Rank(Plan(s, ts, failAt)[l])
    ensures forall k | 0 <= k < |Plan(s, ts, failAt)| :: Rank(ts[0]) <= Rank(Plan(s, ts, failAt)[k])
  {
    if ts != [] {
      var rest := Plan(s, ts[1..], failAt);
      PlanOrdered(s, ts[1..], failAt);
      if |ts| > 1 {
        assert ts[1..][0] == ts[1];
      }
      if |ts| == 1 {
        assert ts[1..] == [];
      }
    }
  }

  /** `onDestroy`: stop, release, cancel, close, in that order, inside one `try`. */
  function OnDestroy(s: Service, failAt: Option<nat>): (s': Service)
    ensures s'.log == s.log + Effects(Plan(s, TeardownOrder, failAt))
    ensures s'.straySockets == s.straySockets && s'.strayRecorders == s.strayRecorders && s'.strayJobs == s.strayJobs
    ensures s'.socket == s.socket && s'.recorder.Some? == s.recorder.Some? && s'.crashed == s.crashed
  {
    TeardownFollowsPlan(s, TeardownOrder, failAt);
    TeardownKeeps(s, TeardownOrder, failAt);
    RunTeardown(s, TeardownOrder, failAt)
  }

  datatype Event =
    | StartCommand(permitted: bool, minBufferSize: int)
    | Read(bytesRead: int, buffer: seq<byte>, sendFails: bool)
    | Inbound(text: string)
    | TransportFailure
    | Destroy(failAt: Option<nat>)

  /**
   * One event. A transport failure is only logged, and a read whose send fails is swallowed:
   * neither ends the streaming loop. `onDestroy` ends the instance, so the next start runs on a
   * fresh one. Once an exception has ended the process nothing happens.
   */
  function Step(s: Service, e: Event): (s': Service)
    ensures s.crashed ==> s' == s
    ensures e.TransportFailure? ==> s' == s
    ensures e.Read? ==> Streaming(s') == Streaming(s)
    ensures e.Read? && e.sendFails ==> s' == s
    ensures e.Inbound? ==> Streaming(s') == Streaming(s)
    ensures !s.crashed && e.StartCommand? ==>
      (s'.crashed <==> e.permitted && !AcceptedBufferSize(e.minBufferSize))
    ensures !s.crashed && e.Destroy? ==> !s'.socket && s'.recorder.None? && s'.job == NoJob && s'.overwrittenJobs == 0
  {
    if s.crashed then s
    else
      match e
      case StartCommand(permitted, size) =>
        (match OnStartCommand(s, permitted, size)
         case Returned(s', _) => s'
         case Threw(s') => s'.(crashed := true))
      case Read(n, buffer, fails) => OnRead(s, n, buffer, fails)
      case Inbound(text) => OnInbound(s, text)
      case TransportFailure => s
      case Destroy(failAt) => DestroyInstance(s, failAt)
  }

  function Run(s: Service, events: seq<Event>): Service
    decreases |events|
  {
    if events == [] then s else Run(Step(s, events[0]), events[1..])
  }

  /** Every teardown call's receiver is there and nothing throws. */
  predicate AllPresent(s: Service) {
    s.recorder.Some? && s.job != NoJob && s.socket
  }

  /** The calls still to come after the first one, two and three. */
  lemma OrderTails()
    ensures TeardownOrder[0] == StopRecorder
    ensures TeardownOrder[1..] == [ReleaseRecorder, CancelJob, CloseSocket]
    ensures TeardownOrder[1..][1..] == [CancelJob, CloseSocket]
    ensures TeardownOrder[1..][1..][1..] == [CloseSocket]
    ensures TeardownOrder[1..][1..][1..][1..] == []
  {
  }

  /** With every receiver present and no exception, `onDestroy` makes all four calls, in order. */
  lemma DestroyCompletes(s: Service)
    requires AllPresent(s)
    ensures OnDestroy(s, None).log ==
      s.log + [RecorderStopped, RecorderReleased, JobCancelled, SocketClosed(CloseCode, CloseReason)]
    ensures !Streaming(OnDestroy(s, None))
  {
    OrderTails();
    var s1 := Apply(s, StopRecorder);
    var s2 := Apply(s1, ReleaseRecorder);
    var s3 := Apply(s2, CancelJob);
    var s4 := Apply(s3, CloseSocket);
    assert RunTeardown(s3, [CloseSocket], None) == s4;
    assert RunTeardown(s2, [CancelJob, CloseSocket], None) == s4;
    assert RunTeardown(s1, [ReleaseRecorder, CancelJob, CloseSocket], None) == s4;
  }

  /** Without an exception `onDestroy` always ends the streaming loop. */
  lemma DestroyStopsStreaming(s: Service)
    ensures !Streaming(OnDestroy(s, None))
  {
    OrderTails();
    var s1 := if s.recorder.Some? then Apply(s, StopRecorder) else s;
    assert OnDestroy(s, None) == RunTeardown(s1, [ReleaseRecorder, CancelJob, CloseSocket], None);
    var s2 := if s1.recorder.Some? then Apply(s1, ReleaseRecorder) else s1;
    assert OnDestroy(s, None) == RunTeardown(s2, [CancelJob, CloseSocket], None);
    var s3 := if s2.job != NoJob then Apply(s2, CancelJob) else s2;
    assert OnDestroy(s, None) == RunTeardown(s3, [CloseSocket], None);
    assert s3.job != Running;
  }

  /**
   * A `stop()` that throws skips the rest of the `try`: the job is not cancelled and the
   * socket stays open, so the loop goes on streaming. On Android `stop()` throws only for a
   * recorder that failed to initialise, and `startRecording()` would already have thrown for
   * such a recorder, so a streaming service does not reach this case; the lemma states what the
   * `try` block would do if it did.
   */
  lemma FailingStopKeepsStreaming(s: Service)
    requires Streaming(s) && s.socket
    ensures OnDestroy(s, Some(0)) == s
    ensures Streaming(OnDestroy(s, Some(0)))
  {
    OrderTails();
  }

  /** The call at position `failAt` of `onDestroy` has its receiver, so it is made and throws. */
  predicate Throws(s: Service, failAt: Option<nat>) {
    failAt.Some? && failAt.value < |TeardownOrder| && Present(s, TeardownOrder[failAt.value])
  }

  /** The plan of `onDestroy` holds a call iff its receiver is there and no call up to it throws. */
  lemma DestroyPlanExactly(s: Service, failAt: Option<nat>)
    ensures forall t :: t in Plan(s, TeardownOrder, failAt) <==>
      Present(s, t) && !(Throws(s, failAt) && failAt.value <= Rank(t))
  {
    OrderTails();
  }

  /** Teardown stops the recorder, releases it and cancels the job exactly when its plan makes those calls. */
  lemma {:induction false} TeardownFields(s: Service, ts: seq<Teardown>, failAt: Option<nat>)
    ensures var s', p := RunTeardown(s, ts, failAt), Plan(s, ts, failAt);
      s'.job == (if CancelJob in p then Cancelled else s.job) &&
      s'.recorder == (if s.recorder.None? then None else
        Some(s.recorder.value.(recording := s.recorder.value.recording && StopRecorder !in p,
                               released := s.recorder.value.released || ReleaseRecorder in p)))
    decreases |ts|
  {
    if ts != [] {
      var t := ts[0];
      if !Present(s, t) {
        TeardownFields(s, ts[1..], failAt);
      } else if failAt != Some(Rank(t)) {
        var s1 := Apply(s, t);
        TeardownFields(s1, ts[1..], failAt);
        PlanAfterApply(s, t, ts[1..], failAt);
        var rest := Plan(s, ts[1..], failAt);
        assert Plan(s, ts, failAt) == [t] + rest;
        assert forall u :: u in [t] + rest <==> u == t || u in rest;
      }
    }
  }

  /**
   * `onDestroy` ends the instance: Android runs the next start on a fresh instance whose fields
   * are null. What the `try` block left open outlives it: the socket unless it was closed, the
   * recorder unless it was released, and every job the instance launched while its recorder
   * still records, since their loops read `audioRecord`; cancelling `recordJob` alone ends it.
   */
  function DestroyInstance(s: Service, failAt: Option<nat>): (s': Service)
    ensures s'.log == s.log + Effects(Plan(s, TeardownOrder, failAt))
    ensures !s'.socket && s'.recorder.None? && s'.job == NoJob && s'.overwrittenJobs == 0
    ensures s'.crashed == s.crashed
    ensures s'.straySockets == s.straySockets + (if s.socket && Throws(s, failAt) then 1 else 0)
    ensures s'.strayRecorders == s.strayRecorders +
      (if s.recorder.Some? && !s.recorder.value.released && Throws(s, failAt) && failAt.value <= Rank(ReleaseRecorder)
       then [if failAt.value == Rank(StopRecorder) then s.recorder.value else s.recorder.value.(recording := false)]
       else [])
    ensures s'.strayJobs == s.strayJobs +
      (if s.recorder.Some? && s.recorder.value.recording && Throws(s, failAt) && failAt.value == Rank(StopRecorder)
       then s.overwrittenJobs + (if s.job == Running then 1 else 0)
       else 0)
  {
    var p := Plan(s, TeardownOrder, failAt);
    var t := OnDestroy(s, failAt);
    TeardownKeeps(s, TeardownOrder, failAt);
    TeardownFields(s, TeardownOrder, failAt);
    DestroyPlanExactly(s, failAt);
    var leftRecorder := if t.recorder.Some? && !t.recorder.value.released then [t.recorder.value] else [];
    var looping := if t.recorder.Some? && t.recorder.value.recording
                   then t.overwrittenJobs + (if t.job == Running then 1 else 0) else 0;
    Service(false, None, NoJob, 0, t.log,
            t.straySockets + (if s.socket && CloseSocket !in p then 1 else 0),
            t.strayRecorders + leftRecorder, t.strayJobs + looping, t.crashed)
  }

  /**
   * `onDestroy` logs one effect per call in its plan: only calls whose receiver is there, in
   * source order, never the call that throws, and none after it; every call before it is made.
   */
  lemma DestroyOrdered(s: Service, failAt: Option<nat>)
    ensures OnDestroy(s, failAt).log == s.log + Effects(Plan(s, TeardownOrder, failAt))
    ensures forall t :: t in Plan(s, TeardownOrder, failAt) <==>
      Present(s, t) && !(Throws(s, failAt) && failAt.value <= Rank(t))
    ensures forall k, l | 0 <= k < l < |Plan(s, TeardownOrder, failAt)| ::
      Rank(Plan(s, TeardownOrder, failAt)[k]) < Rank(Plan(s, TeardownOrder, failAt)[l])
    ensures forall k | 0 <= k < |Plan(s, TeardownOrder, failAt)| ::
      Present(s, Plan(s, TeardownOrder, failAt)[k]) && failAt != Some(Rank(Plan(s, TeardownOrder, failAt)[k]))
  {
    TeardownFollowsPlan(s, TeardownOrder, failAt);
    PlanOrdered(s, TeardownOrder, failAt);
    PlanMembers(s, TeardownOrder, failAt);
    DestroyPlanExactly(s, failAt);
  }

  /** The audio permission was refused on every start. */
  predicate NeverPermitted(events: seq<Event>) {
    forall i | 0 <= i < |events| :: events[i].StartCommand? ==> !events[i].permitted
  }

  /** No audio chunk appears in `log`. */
  predicate NoChunks(log: seq<Effect>) {
    forall k | 0 <= k < |log| :: !log[k].ChunkSent?
  }

  /** Without a recorder and without permission, one event creates no recorder and sends no chunk. */
  lemma DeniedStep(s: Service, e: Event)
    requires s.recorder.None? && s.job == NoJob && NoChunks(s.log)
    requires e.StartCommand? ==> !e.permitted
    ensures Step(s, e).recorder.None? && Step(s, e).job == NoJob && NoChunks(Step(s, e).log)
  {
    var s1 := Step(s, e);
    if !s.crashed {
      match e {
        case StartCommand(p, size) =>
          var fg := s.(log := s.log + [ForegroundStarted(ForegroundId)]);
          assert s1 == StartStreaming(fg, false, size).service;
          assert s1.log == s.log + [ForegroundStarted(ForegroundId), SocketOpened(StreamUrl), SelfStopped];
        case Read(n, buffer, fails) =>
          assert s1 == s;
        case Inbound(text) =>
          assert s1.log == s.log || s1.log == s.log + [AlertShown(AlertTitle, AlertBody)];
        case TransportFailure =>
        case Destroy(failAt) =>
          OrderTails();
          var t := OnDestroy(s, failAt);
          var s2 := if s.socket then Apply(s, CloseSocket) else s;
          assert t == RunTeardown(s, [CloseSocket], failAt);
          assert t == s || t == s2;
          assert s1.log == t.log;
      }
    }
  }

  /**
   * Without RECORD_AUDIO no recorder is ever created and so no audio ever leaves the device,
   * whatever else happens: reads, inbound messages, failures or teardown.
   */
  lemma {:induction false} DeniedNeverStreams(s: Service, events: seq<Event>)
    requires s.recorder.None? && s.job == NoJob && NoChunks(s.log)
    requires NeverPermitted(events)
    ensures NoChunks(Run(s, events).log)
    ensures Run(s, events).recorder.None?
    decreases |events|
  {
    if events != [] {
      DeniedStep(s, events[0]);
      assert NeverPermitted(events[1..]) by {
        forall i | 0 <= i < |events[1..]| ensures events[1..][i].StartCommand? ==> !events[1..][i].permitted {
          assert events[1..][i] == events[i + 1];
        }
      }
      DeniedNeverStreams(Step(s, events[0]), events[1..]);
    }
  }

  /** Teardown never reaches what the fields no longer hold, and keeps which fields are set. */
  lemma {:induction false} TeardownKeeps(s: Service, ts: seq<Teardown>, failAt: Option<nat>)
    ensures var s' := RunTeardown(s, ts, failAt);
      s'.straySockets == s.straySockets && s'.strayRecorders == s.strayRecorders &&
      s'.strayJobs == s.strayJobs && s'.overwrittenJobs == s.overwrittenJobs && s'.crashed == s.crashed &&
      s'.socket == s.socket && s'.recorder.Some? == s.recorder.Some?
    decreases |ts|
  {
    if ts != [] {
      if !Present(s, ts[0]) {
        TeardownKeeps(s, ts[1..], failAt);
      } else if failAt != Some(Rank(ts[0])) {
        TeardownKeeps(Apply(s, ts[0]), ts[1..], failAt);
      }
    }
  }

  /** With every receiver present and no exception, `onDestroy` releases the held recorder. */
  lemma DestroyReleasesHeld(s: Service)
    requires AllPresent(s)
    ensures OnDestroy(s, None).recorder.Some? && OnDestroy(s, None).recorder.value.released
  {
    OrderTails();
    var t2 := Apply(Apply(s, StopRecorder), ReleaseRecorder);
    var t3 := Apply(t2, CancelJob);
    assert OnDestroy(s, None) == Apply(t3, CloseSocket);
  }

  /** Two permitted starts: the second overwrites the socket, the recorder and the job of the first. */
  lemma TwoStarts(n: int)
    requires AcceptedBufferSize(n)
    ensures var s := Step(Step(Initial, StartCommand(true, n)), StartCommand(true, n));
      AllPresent(s) && !s.crashed && s.straySockets == 1 && s.overwrittenJobs == 1 && s.strayJobs == 0 &&
      s.strayRecorders == [Recorder(RecorderConfig(Mic, 16000, InMono, Pcm16Bit, n), true, false)] &&
      !s.recorder.value.released
  {
    var config := RecorderConfig(Mic, 16000, InMono, Pcm16Bit, n);
    var s1 := Step(Initial, StartCommand(true, n));
    assert s1.recorder == Some(Recorder(config, true, false)) && s1.job == Running && s1.socket;
    assert s1.straySockets == 0 && s1.strayRecorders == [] && s1.overwrittenJobs == 0 && s1.strayJobs == 0 && !s1.crashed;
  }

  /**
   * A second start replaces every field: the first socket and the first recorder, still
   * recording and never released, are left behind. `onDestroy` closes only the second socket and
   * releases only the second recorder; stopping it ends both jobs, the overwritten one included,
   * since that loop reads `audioRecord` too.
   */
  lemma SecondStartLeaks(n: int)
    requires AcceptedBufferSize(n)
    ensures var s := Run(Initial, [StartCommand(true, n), StartCommand(true, n), Destroy(None)]);
      s.straySockets == 1 && s.strayJobs == 0 &&
      s.strayRecorders == [Recorder(RecorderConfig(Mic, 16000, InMono, Pcm16Bit, n), true, false)] &&
      !s.socket && s.recorder.None? && s.job == NoJob && s.overwrittenJobs == 0 && !s.crashed
  {
    var es := [StartCommand(true, n), StartCommand(true, n), Destroy(None)];
    var s1 := Step(Initial, es[0]);
    var s2 := Step(s1, es[1]);
    TwoStarts(n);
    var s3 := Step(s2, es[2]);
    assert s3 == DestroyInstance(s2, None);
    assert es[1..][0] == es[1] && es[1..][1..] == [es[2]] && es[1..][1..][1..] == [];
    assert Run(s3, []) == s3;
    assert Run(s2, [es[2]]) == s3;
    assert Run(s1, es[1..]) == Run(s2, [es[2]]);
    assert Run(Initial, es) == Run(s1, es[1..]);
  }

  /**
   * The ordinary call cycle of start, `onDestroy`, start leaks nothing: the second start runs on
   * a fresh instance, and the first one's socket was closed and its recorder released.
   */
  lemma RestartLeaksNothing(n: int)
    requires AcceptedBufferSize(n)
    ensures var s := Run(Initial, [StartCommand(true, n), Destroy(None), StartCommand(true, n)]);
      s.straySockets == 0 && s.strayRecorders == [] && s.strayJobs == 0 && s.overwrittenJobs == 0 &&
      Streaming(s) && s.socket && !s.crashed
  {
    var es := [StartCommand(true, n), Destroy(None), StartCommand(true, n)];
    var s1 := Step(Initial, es[0]);
    assert AllPresent(s1) && s1.straySockets == 0 && s1.strayRecorders == [] && s1.strayJobs == 0 && !s1.crashed;
    var s2 := Step(s1, es[1]);
    assert s2 == DestroyInstance(s1, None);
    assert s2.straySockets == 0 && s2.strayRecorders == [] && s2.strayJobs == 0 && !s2.socket && s2.recorder.None?;
    var s3 := Step(s2, es[2]);
    assert es[1..][0] == es[1] && es[1..][1..] == [es[2]] && es[1..][1..][1..] == [];
    assert Run(s3, []) == s3;
    assert Run(s2, [es[2]]) == s3;
    assert Run(s1, es[1..]) == Run(s2, [es[2]]);
    assert Run(Initial, es) == Run(s1, es[1..]);
  }

  /** Once an exception has ended the process, no later event changes anything. */
  lemma {:induction false} CrashedStays(s: Service, events: seq<Event>)
    requires s.crashed
    ensures Run(s, events) == s
    decreases |events|
  {
    if events != [] {
      CrashedStays(Step(s, events[0]), events[1..]);
    }
  }

  /**
   * With the permission but a buffer size the recorder rejects, the start ends the process
   * after the socket was opened: no recorder, no job and no audio, whatever follows.
   */
  lemma RejectedBufferNeverStreams(n: int, events: seq<Event>)
    requires !AcceptedBufferSize(n)
    ensures var s := Run(Initial, [StartCommand(true, n)] + events);
      s.crashed && s.recorder.None? && s.job == NoJob &&
      s.log == [ForegroundStarted(ForegroundId), SocketOpened(StreamUrl)]
  {
    var s1 := Step(Initial, StartCommand(true, n));
    assert s1.log == [ForegroundStarted(ForegroundId), SocketOpened(StreamUrl)];
    CrashedStays(s1, events);
    assert ([StartCommand(true, n)] + events)[1..] == events;
  }

  /** The resources a log entry can create or dispose of. */
  datatype Resource = SocketResource | RecorderResource

  /** The entry opens a socket or creates a recorder (`disposal` false), or closes or releases one (`disposal` true). */
  predicate Marks(e: Effect, k: Resource, disposal: bool) {
    match k
    case SocketResource => if disposal then e.SocketClosed? else e.SocketOpened?
    case RecorderResource => if disposal then e.RecorderReleased? else e.RecorderCreated?
  }

  /** How many entries of `log` create (`disposal` false) or dispose of (`disposal` true) a resource of kind `k`. */
  function Tally(log: seq<Effect>, k: Resource, disposal: bool): nat
    decreases |log|
  {
    if log == [] then 0 else (if Marks(log[0], k, disposal) then 1 else 0) + Tally(log[1..], k, disposal)
  }

  lemma {:induction false} TallyAppend(a: seq<Effect>, b: seq<Effect>, k: Resource, disposal: bool)
    ensures Tally(a + b, k, disposal) == Tally(a, k, disposal) + Tally(b, k, disposal)
    decreases |a|
  {
    if a != [] {
      assert (a + b)[1..] == a[1..] + b;
      TallyAppend(a[1..], b, k, disposal);
    } else {
      assert a + b == b;
    }
  }

  /** The teardown call that disposes of a resource of kind `k`. */
  function Disposer(k: Resource): Teardown {
    match k
    case SocketResource => CloseSocket
    case RecorderResource => ReleaseRecorder
  }

  /** Teardown calls in strictly increasing source order create nothing and dispose of each kind at most once. */
  lemma {:induction false} TallyTeardown(p: seq<Teardown>, k: Resource)
    requires forall i, j | 0 <= i < j < |p| :: Rank(p[i]) < Rank(p[j])
    ensures Tally(Effects(p), k, false) == 0
    ensures Tally(Effects(p), k, true) == if Disposer(k) in p then 1 else 0
    decreases |p|
  {
    if p != [] {
      var rest := p[1..];
      assert Effects(p)[1..] == Effects(rest);
      assert forall i, j | 0 <= i < j < |rest| :: Rank(rest[i]) < Rank(rest[j]) by {
        forall i, j | 0 <= i < j < |rest| ensures Rank(rest[i]) < Rank(rest[j]) {
          assert rest[i] == p[i + 1] && rest[j] == p[j + 1];
        }
      }
      TallyTeardown(rest, k);
      assert Disposer(k) in p <==> p[0] == Disposer(k) || Disposer(k) in rest by {
        assert p == [p[0]] + rest;
      }
      if p[0] == Disposer(k) {
        forall i | 0 <= i < |rest| ensures rest[i] != Disposer(k) {
          assert Rank(p[0]) < Rank(p[i + 1]);
        }
      }
    }
  }

  /** Recorders none of which has been released. */
  predicate Unreleased(rs: seq<Recorder>) {
    forall i | 0 <= i < |rs| :: !rs[i].released
  }

  /**
   * Every socket and recorder ever created is held by its field, left stray, or disposed of —
   * closed or released — and the stray and held recorders are the unreleased ones.
   */
  predicate Accounted(s: Service) {
    Tally(s.log, SocketResource, false) == Tally(s.log, SocketResource, true) + s.straySockets + (if s.socket then 1 else 0) &&
    Tally(s.log, RecorderResource, false) == Tally(s.log, RecorderResource, true) + |s.strayRecorders| + |Held(s)| &&
    Unreleased(s.strayRecorders) && Unreleased(Held(s))
  }

  /** Logging one more entry counts it where it marks a resource. */
  lemma TallySnoc(log: seq<Effect>, e: Effect)
    ensures forall k, d :: Tally(log + [e], k, d) == Tally(log, k, d) + (if Marks(e, k, d) then 1 else 0)
  {
    forall k, d ensures Tally(log + [e], k, d) == Tally(log, k, d) + (if Marks(e, k, d) then 1 else 0) {
      TallyAppend(log, [e], k, d);
    }
  }

  /** A start logs one socket and at most one recorder, and strays whatever it overwrites. */
  lemma AccountedStart(s: Service, permitted: bool, n: int)
    requires Accounted(s) && !s.crashed
    ensures Accounted(Step(s, StartCommand(permitted, n)))
  {
    var s' := Step(s, StartCommand(permitted, n));
    var l1 := s.log + [ForegroundStarted(ForegroundId)];
    var l2 := l1 + [SocketOpened(StreamUrl)];
    TallySnoc(s.log, ForegroundStarted(ForegroundId));
    TallySnoc(l1, SocketOpened(StreamUrl));
    if !permitted {
      assert s'.log == l2 + [SelfStopped];
      TallySnoc(l2, SelfStopped);
    } else if !AcceptedBufferSize(n) {
      assert s'.log == l2;
    } else {
      var config := RecorderConfig(Mic, SampleRate, InMono, Pcm16Bit, n);
      var l3 := l2 + [RecorderCreated(config)];
      assert s'.log == l3 + [RecordingStarted];
      TallySnoc(l2, RecorderCreated(config));
      TallySnoc(l3, RecordingStarted);
      assert s'.strayRecorders == s.strayRecorders + Held(s);
    }
  }

  /** Ending an instance strays the held socket unless it closed it, and the held recorder unless it released it. */
  lemma DestroyStraysUnclosed(s: Service, failAt: Option<nat>)
    requires Unreleased(s.strayRecorders) && Unreleased(Held(s))
    ensures var d, p := DestroyInstance(s, failAt), Plan(s, TeardownOrder, failAt);
      d.straySockets + (if CloseSocket in p then 1 else 0) == s.straySockets + (if s.socket then 1 else 0) &&
      |d.strayRecorders| + (if ReleaseRecorder in p then 1 else 0) == |s.strayRecorders| + |Held(s)| &&
      Unreleased(d.strayRecorders)
  {
    var p := Plan(s, TeardownOrder, failAt);
    var t := OnDestroy(s, failAt);
    TeardownKeeps(s, TeardownOrder, failAt);
    TeardownFields(s, TeardownOrder, failAt);
    PlanMembers(s, TeardownOrder, failAt);
    assert CloseSocket in p ==> s.socket;
    assert ReleaseRecorder in p ==> s.recorder.Some?;
    var leftRecorder := if t.recorder.Some? && !t.recorder.value.released then [t.recorder.value] else [];
    assert DestroyInstance(s, failAt).strayRecorders == s.strayRecorders + leftRecorder;
    if s.recorder.Some? {
      assert !s.recorder.value.released by { assert Held(s)[0] == s.recorder.value; }
    }
  }

  /** Ending an instance disposes of what it closed or released and strays what it left open. */
  lemma AccountedDestroy(s: Service, failAt: Option<nat>)
    requires Accounted(s)
    ensures Accounted(DestroyInstance(s, failAt))
  {
    var p := Plan(s, TeardownOrder, failAt);
    var d := DestroyInstance(s, failAt);
    DestroyStraysUnclosed(s, failAt);
    PlanOrdered(s, TeardownOrder, failAt);
    forall k, b { TallyAppend(s.log, Effects(p), k, b); }
    TallyTeardown(p, SocketResource);
    TallyTeardown(p, RecorderResource);
    assert d.log == s.log + Effects(p);
    assert Held(d) == [];
  }

  /** One event keeps every created socket and recorder accounted for. */
  lemma AccountedStep(s: Service, e: Event)
    requires Accounted(s)
    ensures Accounted(Step(s, e))
  {
    if !s.crashed {
      match e {
        case StartCommand(permitted, n) => AccountedStart(s, permitted, n);
        case Read(n, buffer, fails) =>
          var s' := Step(s, e);
          if s'.log != s.log {
            TallySnoc(s.log, ChunkSent(buffer[..n]));
          }
        case Inbound(text) =>
          TallySnoc(s.log, AlertShown(AlertTitle, AlertBody));
        case TransportFailure =>
        case Destroy(failAt) => AccountedDestroy(s, failAt);
      }
    }
  }

  /**
   * Whatever happens, every socket the log shows opened and every recorder it shows created is
   * held by the live instance's fields, closed or released by a teardown, or left stray; the
   * stray ones are exactly those no teardown reached.
   */
  lemma {:induction false} EveryResourceAccounted(s: Service, events: seq<Event>)
    requires Accounted(s)
    ensures Accounted(Run(s, events))
    decreases |events|
  {
    if events != [] {
      AccountedStep(s, events[0]);
      EveryResourceAccounted(Step(s, events[0]), events[1..]);
    }
  }
}
