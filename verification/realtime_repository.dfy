/**
 * `RealtimeRepository`: one WebSocket session to the transcription server, as a state machine
 * over the repository's fields (`client`, `webSocket`, `isConnected`, `pingJob`) with an
 * append-only log of the frames it hands to sockets.
 *
 * Sockets are named by the index of the `connect` request that created them. Listener
 * callbacks, the ping job's 15-second timer and the caller's sends are all events of `Step`.
 */
module RealtimeRepository {
  import opened Wrappers
  import opened Bytes
  import opened Messages
  import ApiClient

  /** The `Origin` header sent with every connect request. */
  const Origin := "https://" + ApiClient.Host

  /** Delay between two keepalive pings, in milliseconds. */
  const PingIntervalMs := 15000

  /** The keepalive text frame. */
  const Ping := "ping"

  /** Close code 1000, "normal closure" in section 7.4.1 of RFC 6455. */
  const NormalClosure := 1000

  /** The close reason text. */
  const CloseReason := "종료"

  datatype Frame =
    | BinaryFrame(bytes: seq<byte>)
    | TextFrame(text: string)
    | CloseFrame(code: int, reason: string)

  /** A frame handed to the socket with the given index. */
  datatype Sent = Sent(socket: nat, frame: Frame)

  /** A WebSocket request built by `connect`. */
  datatype Request = Request(url: string, origin: string)

  /** A keepalive coroutine, sending on the socket it was launched for until cancelled. */
  datatype PingJob = PingJob(socket: nat, active: bool)

  /**
   * The repository's fields: `hasClient` is `client != null`, `socket` is `webSocket`,
   * `pingJob` indexes the job the `pingJob` field refers to among all jobs ever launched.
   * `requests`, `outbound` and `emitted` are logs: sockets created, frames sent, messages
   * emitted on `incomingMessages`.
   */
  datatype Repo = Repo(
    hasClient: bool,
    socket: Option<nat>,
    connected: bool,
    pingJob: Option<nat>,
    jobs: seq<PingJob>,
    requests: seq<Request>,
    outbound: seq<Sent>,
    emitted: seq<RealtimeMessage>)

  /** A freshly constructed repository. */
  const Initial := Repo(false, None, false, None, [], [], [], [])

  /** Every socket the state refers to was created by a `connect`. */
  predicate Valid(r: Repo) {
    && (r.socket.Some? ==> r.socket.value < |r.requests|)
    && (r.pingJob.Some? ==> r.pingJob.value < |r.jobs|)
    && (forall j | 0 <= j < |r.jobs| :: r.jobs[j].socket < |r.requests|)
    && (forall k | 0 <= k < |r.outbound| :: r.outbound[k].socket < |r.requests|)
  }

  /** The job the `pingJob` field refers to is not running. */
  predicate PingStopped(r: Repo) {
    r.pingJob.Some? && r.pingJob.value < |r.jobs| ==> !r.jobs[r.pingJob.value].active
  }

  /** `connect()`: guarded only by `isConnected`, so a second call before `onOpen` opens another socket. */
  function Connect(r: Repo): (r': Repo)
    ensures r.connected ==> r' == r
    ensures !r.connected ==>
      && |r'.requests| == |r.requests| + 1
      && r'.requests[..|r.requests|] == r.requests
      && r'.requests[|r.requests|] == Request(ApiClient.TranscriptionWsUrl(), Origin)
      && r'.socket == Some(|r.requests|)
      && r'.hasClient && !r'.connected
      && r'.outbound == r.outbound && r'.jobs == r.jobs && r'.pingJob == r.pingJob
  {
    if r.connected then r
    else
      var req := Request(ApiClient.TranscriptionWsUrl(), Origin);
      r.(hasClient := true, socket := Some(|r.requests|), requests := r.requests + [req])
  }

  /** `onOpen(ws)`: marks the session connected and launches a ping job for `ws`. */
  function OnOpen(r: Repo, ws: nat): (r': Repo)
    ensures r'.connected
    ensures |r'.jobs| == |r.jobs| + 1 && r'.jobs[..|r.jobs|] == r.jobs
    ensures r'.jobs[|r.jobs|] == PingJob(ws, true) && r'.pingJob == Some(|r.jobs|)
    ensures r'.socket == r.socket && r'.outbound == r.outbound && r'.requests == r.requests
  {
    r.(connected := true, jobs := r.jobs + [PingJob(ws, true)], pingJob := Some(|r.jobs|))
  }

  /** `onMessage(ws, text)`: a parsed message is emitted; an unparseable one is dropped. */
  function OnText(r: Repo, parsed: Option<RealtimeMessage>): (r': Repo)
    ensures r'.emitted == r.emitted + (if parsed.Some? then [parsed.value] else [])
    ensures r'.(emitted := r.emitted) == r
  {
    match parsed
    case Some(m) => r.(emitted := r.emitted + [m])
    case None => r
  }

  /** `pingJob?.cancel()`: stops the tracked job, if any. */
  function CancelPing(r: Repo): (r': Repo)
    ensures PingStopped(r')
    ensures r'.pingJob == r.pingJob && |r'.jobs| == |r.jobs|
    ensures forall j | 0 <= j < |r.jobs| :: r'.jobs[j].socket == r.jobs[j].socket
    ensures forall j | 0 <= j < |r.jobs| && Some(j) != r.pingJob :: r'.jobs[j] == r.jobs[j]
  {
    if r.pingJob.Some? && r.pingJob.value < |r.jobs| then
      var j := r.pingJob.value;
      r.(jobs := r.jobs[j := r.jobs[j].(active := false)])
    else r
  }

  /**
   * `close()` (and `disconnect()`). When not connected it only cancels the ping job and drops
   * the client, leaving `webSocket` as it is; when connected it also closes the socket with
   * code 1000 and clears it.
   */
  function Close(r: Repo): (r': Repo)
    ensures !r'.connected && !r'.hasClient && PingStopped(r')
    ensures !r.connected ==> r'.socket == r.socket && r'.outbound == r.outbound
    ensures r.connected ==> r'.socket.None?
    ensures r.connected && r.socket.Some? ==>
      r'.outbound == r.outbound + [Sent(r.socket.value, CloseFrame(NormalClosure, CloseReason))]
    ensures r.connected && r.socket.None? ==> r'.outbound == r.outbound
    ensures r'.requests == r.requests && r'.emitted == r.emitted
  {
    if !r.connected then
      CancelPing(r).(hasClient := false)
    else
      var r1 := CancelPing(r.(connected := false));
      var out := match r.socket
        case Some(ws) => r1.outbound + [Sent(ws, CloseFrame(NormalClosure, CloseReason))]
        case None => r1.outbound;
      r1.(outbound := out, hasClient := false, socket := None)
  }

  /** `sendPcm(chunk)`: a binary frame on `webSocket`, only while connected. */
  function SendPcm(r: Repo, chunk: seq<byte>): (r': Repo)
    ensures r.connected && r.socket.Some? <==> r' != r
    ensures r' != r ==> r' == r.(outbound := r.outbound + [Sent(r.socket.value, BinaryFrame(chunk))])
  {
    if r.connected then
      match r.socket
      case Some(ws) => r.(outbound := r.outbound + [Sent(ws, BinaryFrame(chunk))])
      case None => r
    else r
  }

  /** `sendText(message)`: a text frame on `webSocket`, only while connected. */
  function SendText(r: Repo, message: string): (r': Repo)
    ensures r.connected && r.socket.Some? <==> r' != r
    ensures r' != r ==> r' == r.(outbound := r.outbound + [Sent(r.socket.value, TextFrame(message))])
  {
    if r.connected then
      match r.socket
      case Some(ws) => r.(outbound := r.outbound + [Sent(ws, TextFrame(message))])
      case None => r
    else r
  }

  /**
   * One tick of ping job `j`, `PingIntervalMs` after its previous one: a running job sends
   * "ping" on the socket it was launched for, whatever socket `webSocket` now holds; a
   * cancelled one sends nothing.
   */
  function PingTick(r: Repo, j: nat): (r': Repo)
    ensures j < |r.jobs| && r.jobs[j].active <==> r' != r
    ensures r' != r ==> r' == r.(outbound := r.outbound + [Sent(r.jobs[j].socket, TextFrame(Ping))])
  {
    if j < |r.jobs| && r.jobs[j].active then
      r.(outbound := r.outbound + [Sent(r.jobs[j].socket, TextFrame(Ping))])
    else r
  }

  datatype Event =
    | ConnectCall
    | Opened(ws: nat)
    | InboundText(ws: nat, parsed: Option<RealtimeMessage>)
    | InboundBinary(ws: nat, size: nat)
    | Failed(ws: nat)
    | Closing(ws: nat, code: int, reason: string)
    | Closed(ws: nat, code: int, reason: string)
    | SendPcmCall(chunk: seq<byte>)
    | SendTextCall(message: string)
    | CloseCall
    | Tick(job: nat)

  /** The repository's reaction to one event. */
  function Step(r: Repo, e: Event): (r': Repo)
    ensures !r.connected && r'.connected ==> e.Opened?
    ensures e.Failed? || e.Closing? || e.Closed? || e.CloseCall? ==> r' == Close(r)
    ensures e.InboundBinary? || (e.InboundText? && e.parsed.None?) ==> r' == r
  {
    match e
    case ConnectCall => Connect(r)
    case Opened(ws) => OnOpen(r, ws)
    case InboundText(_, parsed) => OnText(r, parsed)
    case InboundBinary(_, _) => r
    case Failed(_) => Close(r)
    case Closing(_, _, _) => Close(r)
    case Closed(_, _, _) => Close(r)
    case SendPcmCall(chunk) => SendPcm(r, chunk)
    case SendTextCall(message) => SendText(r, message)
    case CloseCall => Close(r)
    case Tick(j) => PingTick(r, j)
  }

  /** The logs are append-only: no event removes a request, a sent frame or an emitted message. */
  lemma LogsOnlyGrow(r: Repo, e: Event)
    ensures var r' := Step(r, e);
      r.outbound <= r'.outbound && r.requests <= r'.requests && r.emitted <= r'.emitted
  {
    match e
    case Failed(_) => CloseGrows(r);
    case Closing(_, _, _) => CloseGrows(r);
    case Closed(_, _, _) => CloseGrows(r);
    case CloseCall => CloseGrows(r);
    case _ =>
  }

  /** Closing appends at most one close frame. */
  lemma CloseGrows(r: Repo)
    ensures r.outbound <= Close(r).outbound
  {
  }

  /** The `InboundText` events on socket `ws` for the parse results `ps`, in order. */
  function TextEvents(ws: nat, ps: seq<Option<RealtimeMessage>>): (es: seq<Event>)
    ensures |es| == |ps|
  {
    seq(|ps|, i requires 0 <= i < |ps| => InboundText(ws, ps[i]))
  }

  /** The messages among the parse results, in order. */
  function Parsed(ps: seq<Option<RealtimeMessage>>): seq<RealtimeMessage>
    decreases |ps|
  {
    if ps == [] then [] else (if ps[0].Some? then [ps[0].value] else []) + Parsed(ps[1..])
  }

  /** An inbound text frame emits its message, if it parsed, and changes nothing else. */
  lemma TextStep(r: Repo, ws: nat, p: Option<RealtimeMessage>)
    ensures Step(r, InboundText(ws, p)) == r.(emitted := r.emitted + Parsed([p]))
  {
    assert [p][1..] == [];
  }

  /** The events and messages of a non-empty list of parse results: the first, then the rest. */
  lemma TextEventsCons(ws: nat, ps: seq<Option<RealtimeMessage>>)
    requires ps != []
    ensures TextEvents(ws, ps)[0] == InboundText(ws, ps[0])
    ensures TextEvents(ws, ps)[1..] == TextEvents(ws, ps[1..])
    ensures Parsed(ps) == Parsed([ps[0]]) + Parsed(ps[1..])
  {
    assert [ps[0]][1..] == [];
  }

  /** Appending to the message log in two steps is appending once. */
  lemma AppendMessagesTwice(log: seq<RealtimeMessage>, first: seq<RealtimeMessage>, rest: seq<RealtimeMessage>)
    ensures log + first + rest == log + (first + rest)
  {
  }

  /**
   * Inbound text frames emit exactly the messages that parsed, in arrival order, and change
   * nothing else; the unparseable ones leave no trace.
   */
  lemma {:induction false} MessagesEmitted(r: Repo, ws: nat, ps: seq<Option<RealtimeMessage>>)
    ensures Run(r, TextEvents(ws, ps)) == r.(emitted := r.emitted + Parsed(ps))
    decreases |ps|
  {
    var es := TextEvents(ws, ps);
    if ps == [] {
      assert es == [];
      assert r.emitted + Parsed(ps) == r.emitted;
    } else {
      var r1 := r.(emitted := r.emitted + Parsed([ps[0]]));
      TextEventsCons(ws, ps);
      TextStep(r, ws, ps[0]);
      MessagesEmitted(r1, ws, ps[1..]);
      var out := r.emitted + Parsed(ps);
      AppendMessagesTwice(r.emitted, Parsed([ps[0]]), Parsed(ps[1..]));
      calc {
        Run(r, es);
        Run(Step(r, es[0]), es[1..]);
        Run(r1, TextEvents(ws, ps[1..]));
        r1.(emitted := out);
        r.(emitted := out);
      }
    }
  }

  /** Events in order. */
  function Run(r: Repo, events: seq<Event>): Repo
    decreases |events|
  {
    if events == [] then r else Run(Step(r, events[0]), events[1..])
  }

  /** Callbacks name sockets that exist. */
  predicate ValidEvent(r: Repo, e: Event) {
    match e
    case Opened(ws) => ws < |r.requests|
    case InboundText(ws, _) => ws < |r.requests|
    case InboundBinary(ws, _) => ws < |r.requests|
    case Failed(ws) => ws < |r.requests|
    case Closing(ws, _, _) => ws < |r.requests|
    case Closed(ws, _, _) => ws < |r.requests|
    case _ => true
  }

  /** Every event of the trace is valid in the state it meets. */
  predicate ValidTrace(r: Repo, events: seq<Event>)
    decreases |events|
  {
    events == [] || (ValidEvent(r, events[0]) && ValidTrace(Step(r, events[0]), events[1..]))
  }

  /** Closing adds at most a frame on the current socket, so it keeps every reference valid. */
  lemma CloseValid(r: Repo)
    requires Valid(r)
    ensures Valid(Close(r))
  {
    var r' := Close(r);
    assert forall j | 0 <= j < |r'.jobs| :: r'.jobs[j].socket == r.jobs[j].socket;
  }

  /** A frame on a created socket keeps every reference valid. */
  lemma SentValid(r: Repo, x: Sent)
    requires Valid(r) && x.socket < |r.requests|
    ensures Valid(r.(outbound := r.outbound + [x]))
  {
    var out := r.outbound + [x];
    assert forall k | 0 <= k < |out| :: out[k] == if k < |r.outbound| then r.outbound[k] else x;
  }

  /** A job launched for a created socket keeps every reference valid. */
  lemma OpenValid(r: Repo, ws: nat)
    requires Valid(r) && ws < |r.requests|
    ensures Valid(OnOpen(r, ws))
  {
    var jobs := r.jobs + [PingJob(ws, true)];
    assert forall j | 0 <= j < |jobs| :: jobs[j] == if j < |r.jobs| then r.jobs[j] else PingJob(ws, true);
  }

  /** One step keeps every referenced socket a created one. */
  lemma StepValid(r: Repo, e: Event)
    requires Valid(r) && ValidEvent(r, e)
    ensures Valid(Step(r, e))
  {
    match e
    case Failed(_) => CloseValid(r);
    case Closing(_, _, _) => CloseValid(r);
    case Closed(_, _, _) => CloseValid(r);
    case CloseCall => CloseValid(r);
    case Opened(ws) => OpenValid(r, ws);
    case SendPcmCall(chunk) =>
      if Step(r, e) != r {
        SentValid(r, Sent(r.socket.value, BinaryFrame(chunk)));
      }
    case SendTextCall(message) =>
      if Step(r, e) != r {
        SentValid(r, Sent(r.socket.value, TextFrame(message)));
      }
    case Tick(j) =>
      if Step(r, e) != r {
        SentValid(r, Sent(r.jobs[j].socket, TextFrame(Ping)));
      }
    case _ =>
  }

  /** Any valid trace keeps every referenced socket a created one. */
  lemma {:induction false} RunValid(r: Repo, events: seq<Event>)
    requires Valid(r) && ValidTrace(r, events)
    ensures Valid(Run(r, events))
    decreases |events|
  {
    if events != [] {
      StepValid(r, events[0]);
      RunValid(Step(r, events[0]), events[1..]);
    }
  }

  /** `close(); close()` is `close()`. */
  lemma CloseIdempotent(r: Repo)
    ensures Close(Close(r)) == Close(r)
  {
  }

  /** After any close path nothing the caller sends reaches a socket. */
  lemma NothingSentAfterClose(r: Repo, e: Event)
    requires e.SendPcmCall? || e.SendTextCall?
    ensures Step(Close(r), e) == Close(r)
  {
  }

  /** The `SendPcmCall` events for `chunks`, in order. */
  function PcmCalls(chunks: seq<seq<byte>>): (es: seq<Event>)
    ensures |es| == |chunks|
  {
    seq(|chunks|, i requires 0 <= i < |chunks| => SendPcmCall(chunks[i]))
  }

  /** The binary frames on socket `ws` carrying `chunks`, in order. */
  function PcmFrames(ws: nat, chunks: seq<seq<byte>>): (fs: seq<Sent>)
    ensures |fs| == |chunks|
  {
    seq(|chunks|, i requires 0 <= i < |chunks| => Sent(ws, BinaryFrame(chunks[i])))
  }

  /** Appending to a log in two steps is appending once. */
  lemma AppendTwice(log: seq<Sent>, first: seq<Sent>, rest: seq<Sent>)
    ensures log + first + rest == log + (first + rest)
  {
  }

  /** A connected `sendPcm` appends its one frame and changes nothing else. */
  lemma SendPcmConnected(r: Repo, chunk: seq<byte>)
    requires r.connected && r.socket.Some?
    ensures Step(r, SendPcmCall(chunk)) == r.(outbound := r.outbound + [Sent(r.socket.value, BinaryFrame(chunk))])
  {
  }

  /** The frames of a non-empty chunk list: the first chunk's frame, then the rest. */
  lemma PcmFramesCons(ws: nat, chunks: seq<seq<byte>>)
    requires chunks != []
    ensures PcmFrames(ws, chunks) == [Sent(ws, BinaryFrame(chunks[0]))] + PcmFrames(ws, chunks[1..])
  {
  }

  /** While connected, N `sendPcm` calls append exactly N binary frames, in call order. */
  lemma {:induction false} PcmInOrder(r: Repo, chunks: seq<seq<byte>>)
    requires r.connected && r.socket.Some?
    ensures Run(r, PcmCalls(chunks)) == r.(outbound := r.outbound + PcmFrames(r.socket.value, chunks))
    decreases |chunks|
  {
    var ws := r.socket.value;
    var es := PcmCalls(chunks);
    if chunks == [] {
      assert es == [];
      assert r.outbound + PcmFrames(ws, chunks) == r.outbound;
    } else {
      var f := Sent(ws, BinaryFrame(chunks[0]));
      var r1 := r.(outbound := r.outbound + [f]);
      SendPcmConnected(r, chunks[0]);
      assert es[0] == SendPcmCall(chunks[0]) && es[1..] == PcmCalls(chunks[1..]);
      PcmInOrder(r1, chunks[1..]);
      PcmFramesCons(ws, chunks);
      var out := r.outbound + PcmFrames(ws, chunks);
      AppendTwice(r.outbound, [f], PcmFrames(ws, chunks[1..]));
      calc {
        Run(r, es);
        Run(Step(r, es[0]), es[1..]);
        Run(r1, PcmCalls(chunks[1..]));
        r1.(outbound := out);
        r.(outbound := out);
      }
    }
  }

  /** `n` copies of `x`. */
  function Repeat<T>(x: T, n: nat): (xs: seq<T>)
    ensures |xs| == n
  {
    if n == 0 then [] else [x] + Repeat(x, n - 1)
  }

  /** A tick of a running job appends one "ping" on its socket and changes nothing else. */
  lemma TickRunning(r: Repo, j: nat)
    requires j < |r.jobs| && r.jobs[j].active
    ensures Step(r, Tick(j)) == r.(outbound := r.outbound + [Sent(r.jobs[j].socket, TextFrame(Ping))])
  {
  }

  /** `n + 1` copies of `x`: one, then `n`. */
  lemma RepeatCons<T>(x: T, n: nat)
    ensures Repeat(x, n + 1) == [x] + Repeat(x, n)
  {
  }

  /** A running ping job sends exactly one "ping" per tick, on the socket it was opened for. */
  lemma {:induction false} KeepalivePings(r: Repo, j: nat, n: nat)
    requires j < |r.jobs| && r.jobs[j].active
    ensures Run(r, Repeat(Tick(j), n)) == r.(outbound := r.outbound + Repeat(Sent(r.jobs[j].socket, TextFrame(Ping)), n))
    decreases n
  {
    var p := Sent(r.jobs[j].socket, TextFrame(Ping));
    if n == 0 {
      assert r.outbound + Repeat(p, 0) == r.outbound;
    } else {
      var ticks := Repeat(Tick(j), n);
      RepeatCons(Tick(j), n - 1);
      assert ticks[0] == Tick(j) && ticks[1..] == Repeat(Tick(j), n - 1);
      var r1 := r.(outbound := r.outbound + [p]);
      TickRunning(r, j);
      KeepalivePings(r1, j, n - 1);
      RepeatCons(p, n - 1);
      var out := r.outbound + Repeat(p, n);
      AppendTwice(r.outbound, [p], Repeat(p, n - 1));
      calc {
        Run(r, ticks);
        Run(Step(r, ticks[0]), ticks[1..]);
        Run(r1, Repeat(Tick(j), n - 1));
        r1.(outbound := out);
        r.(outbound := out);
      }
    }
  }

  /** `connect` before `onOpen` is not suppressed: two calls create two sockets. */
  lemma SecondConnectNotSuppressed()
    ensures |Run(Initial, [ConnectCall, ConnectCall]).requests| == 2
    ensures Run(Initial, [ConnectCall, ConnectCall]).socket == Some(1)
  {
    assert [ConnectCall, ConnectCall][1..] == [ConnectCall];
  }

  /**
   * With two sockets, closing after the first opens clears `webSocket`, and the second
   * socket's `onOpen` then marks the session connected with no socket to send on.
   */
  lemma ConnectedWithoutSocket()
    ensures var r := Run(Initial, [ConnectCall, ConnectCall, Opened(0), CloseCall, Opened(1)]);
      r.connected && r.socket.None? && SendPcm(r, [1, 2]) == r
  {
    var es := [ConnectCall, ConnectCall, Opened(0), CloseCall, Opened(1)];
    assert es[1..] == [ConnectCall, Opened(0), CloseCall, Opened(1)];
    assert es[2..] == [Opened(0), CloseCall, Opened(1)];
    assert es[3..] == [CloseCall, Opened(1)];
    assert es[4..] == [Opened(1)];
  }
}
