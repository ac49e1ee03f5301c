/**
 * `realtime_api` (src/voice_assistant/main.py): the reconnecting session
 * that streams microphone audio to the realtime endpoint.
 *
 * One attempt reads the API key, creates the microphone and the visual
 * interface, connects, sends the `session.update` event, starts recording
 * and then paces: every 10 ms, unless the assistant is speaking, it drains
 * the microphone and sends the drained audio as one Base64
 * `input_audio_buffer.append` event. The outer `while True` repeats the
 * attempt after a keepalive ping timeout and stops on anything else.
 *
 * What the world does to an attempt (which calls raise, what the
 * microphone captures between two pacing iterations, how the pacing loop
 * is finally interrupted) is an `AttemptEnv` value; the outer loop is
 * observed over a finite script of such values.
 */
module Session {
  import opened Wrappers
  import Base64

  type byte = Base64.byte

  /* ---------------------------------------------------------------- */
  /* Exceptions and the handlers that test them                        */
  /* ---------------------------------------------------------------- */

  /** The exceptions `realtime_api` tells apart, by the classes its
      `except` clauses name. */
  datatype Exc =
    | KeyboardInterrupt                // a BaseException, not an Exception
    | Cancelled                        // asyncio.CancelledError or another non-Exception BaseException
    | ConnectionClosed(reason: string) // websockets' ConnectionClosedError; `reason` is `str(e)`
    | Failure(reason: string)          // any other Exception

  /** `isinstance(e, Exception)` */
  predicate IsException(e: Exc) {
    e.ConnectionClosed? || e.Failure?
  }

  /** Caught by `except KeyboardInterrupt` or `except Exception` around the pacing loop. */
  predicate InnerCatches(e: Exc) {
    e.KeyboardInterrupt? || IsException(e)
  }

  const KeepaliveTimeout: string := "keepalive ping timeout"

  predicate OccursAt(s: string, sub: string, i: int) {
    0 <= i && i + |sub| <= |s| && s[i..i + |sub|] == sub
  }

  /** Python's `sub in s` on strings. */
  function Contains(s: string, sub: string): bool
    decreases |s|
  {
    if |sub| > |s| then false
    else if s[..|sub|] == sub then true
    else Contains(s[1..], sub)
  }

  /** `Contains` holds exactly when `sub` occurs somewhere in `s`. */
  lemma {:induction false} ContainsIff(s: string, sub: string)
    ensures Contains(s, sub) <==> exists i :: OccursAt(s, sub, i)
    decreases |s|
  {
    if |sub| > |s| {
    } else if s[..|sub|] == sub {
      assert OccursAt(s, sub, 0);
    } else {
      ContainsIff(s[1..], sub);
      if i :| OccursAt(s[1..], sub, i) {
        assert s[1..][i..i + |sub|] == s[i + 1..i + 1 + |sub|];
        assert OccursAt(s, sub, i + 1);
      }
      if i :| OccursAt(s, sub, i) {
        assert i != 0;
        assert s[1..][i - 1..i - 1 + |sub|] == s[i..i + |sub|];
        assert OccursAt(s[1..], sub, i - 1);
      }
    }
  }

  /** What an attempt ends in. */
  datatype Outcome =
    | NoApiKey            // `return` when the key is missing
    | Completed           // `break` after the session body finished
    | Retry               // wait one second, `continue`
    | Stopped(e: Exc)     // an Exception was caught by the outer handlers: `break`
    | Propagated(e: Exc)  // not an Exception: it leaves `realtime_api`

  /** The outer `except ConnectionClosedError` / `except Exception` clauses
      for an exception leaving the attempt's body. */
  function Handle(e: Exc): Outcome {
    match e
    case ConnectionClosed(reason) =>
      if Contains(reason, KeepaliveTimeout) then Retry else Stopped(e)
    case Failure(_) => Stopped(e)
    case _ => Propagated(e)
  }

  /** Only a closed connection whose message mentions a keepalive ping
      timeout is retried; every other Exception stops the loop, and what is
      not an Exception leaves `realtime_api` unchanged. */
  lemma HandleClassifies(e: Exc)
    ensures Handle(e) == Retry <==> e.ConnectionClosed? && exists i :: OccursAt(e.reason, KeepaliveTimeout, i)
    ensures Handle(e) == Stopped(e) <==> IsException(e) && Handle(e) != Retry
    ensures Handle(e) == Propagated(e) <==> !IsException(e)
    ensures Handle(e).Stopped? || Handle(e).Propagated? || Handle(e) == Retry
  {
    if e.ConnectionClosed? {
      ContainsIff(e.reason, KeepaliveTimeout);
    }
  }

  /** A connection closed for a keepalive ping timeout is retried, whatever
      else its message says; one closed for any other reason is not. */
  lemma KeepaliveRetried(prefix: string, suffix: string, other: string)
    ensures Handle(ConnectionClosed(prefix + KeepaliveTimeout + suffix)) == Retry
    ensures !Contains(other, KeepaliveTimeout) ==> Handle(ConnectionClosed(other)) == Stopped(ConnectionClosed(other))
  {
    var s := prefix + KeepaliveTimeout + suffix;
    assert s[|prefix|..|prefix| + |KeepaliveTimeout|] == KeepaliveTimeout;
    assert OccursAt(s, KeepaliveTimeout, |prefix|);
    ContainsIff(s, KeepaliveTimeout);
  }

  /* ---------------------------------------------------------------- */
  /* Events sent to the server                                         */
  /* ---------------------------------------------------------------- */

  /** The values main.py imports from voice_assistant.config and
      voice_assistant.tools. */
  datatype Settings = Settings(
    instructions: string,
    silenceThreshold: real,
    prefixPaddingMs: int,
    silenceDurationMs: int,
    toolSchemas: seq<string>)

  datatype TurnDetection = TurnDetection(kind: string, threshold: real, prefixPaddingMs: int, silenceDurationMs: int)

  datatype SessionConfig = SessionConfig(
    modalities: seq<string>,
    instructions: string,
    voice: string,
    inputAudioFormat: string,
    outputAudioFormat: string,
    turnDetection: TurnDetection,
    tools: seq<string>)

  /** The two events `realtime_api` itself sends. */
  datatype OutEvent =
    | SessionUpdate(session: SessionConfig)
    | AudioAppend(audio: string)

  /** The `session.update` event built before anything else is sent. */
  function SessionUpdateFor(settings: Settings): OutEvent {
    SessionUpdate(SessionConfig(
      ["text", "audio"], settings.instructions, "shimmer", "pcm16", "pcm16",
      TurnDetection("server_vad", settings.silenceThreshold, settings.prefixPaddingMs, settings.silenceDurationMs),
      settings.toolSchemas))
  }

  /* ---------------------------------------------------------------- */
  /* The pacing loop as a fold over its iterations                     */
  /* ---------------------------------------------------------------- */

  /** What the world does during one 10 ms sleep of the pacing loop and
      to the send that may follow it. */
  datatype Tick = Tick(
    captured: seq<seq<byte>>,  // chunks the microphone's callback appends to its buffer
    receiving: bool,           // `mic.is_receiving` when the loop looks at it
    sendFailure: Option<Exc>)  // what `websocket.send` raises, if it raises

  /** Concatenation of audio chunks. */
  function Flatten(chunks: seq<seq<byte>>): seq<byte>
    decreases |chunks|
  {
    if |chunks| == 0 then [] else chunks[0] + Flatten(chunks[1..])
  }

  lemma {:induction false} FlattenAppend(a: seq<seq<byte>>, b: seq<seq<byte>>)
    ensures Flatten(a + b) == Flatten(a) + Flatten(b)
    decreases |a|
  {
    if |a| > 0 {
      assert (a + b)[1..] == a[1..] + b;
      FlattenAppend(a[1..], b);
    } else {
      assert a + b == b;
    }
  }

  /** The chunks captured over a run of ticks, in capture order. */
  function AllCaptured(ticks: seq<Tick>): seq<seq<byte>>
    decreases |ticks|
  {
    if |ticks| == 0 then [] else AllCaptured(ticks[..|ticks| - 1]) + ticks[|ticks| - 1].captured
  }

  /** The state of one pacing loop. */
  datatype Pace = Pace(
    buffer: seq<seq<byte>>,    // the microphone's undrained chunks
    sent: seq<OutEvent>,       // the append events sent, in order
    processed: seq<seq<byte>>, // the audio passed to `process_audio_data`, in order
    dropped: seq<byte>,        // audio drained by the iteration whose send raised
    raised: Option<Exc>)       // the exception that send raised

  /** What one iteration drains from the microphone. */
  function Drained(p: Pace, t: Tick): seq<byte> {
    Flatten(p.buffer + t.captured)
  }

  /** One iteration of `while not exit_event.is_set()`. */
  function Step(p: Pace, t: Tick): (q: Pace)
    ensures p.raised.Some? ==> q == p
    ensures t.receiving ==> q.sent == p.sent && q.processed == p.processed
    ensures p.raised.None? && !t.receiving ==> q.buffer == []
    ensures q.sent == p.sent ==> q.processed == p.processed
    ensures q.sent != p.sent ==>
      p.raised.None? && !t.receiving && t.sendFailure.None? && Drained(p, t) != [] &&
      q.sent == p.sent + [AudioAppend(Base64.Encode(Drained(p, t)))] &&
      q.processed == p.processed + [Drained(p, t)]
    ensures p.raised.None? && !t.receiving && Drained(p, t) != [] && t.sendFailure.None? ==> q.sent != p.sent
    ensures q.raised.None? ==> q.dropped == p.dropped
    ensures p.raised.None? && t.receiving ==> q == p.(buffer := p.buffer + t.captured)
    ensures p.raised.None? && q.raised.Some? <==>
      p.raised.None? && !t.receiving && Drained(p, t) != [] && t.sendFailure.Some?
    ensures p.raised.None? && q.raised.Some? ==>
      q.raised == t.sendFailure && q.dropped == Drained(p, t) && q.buffer == []
      && q.sent == p.sent && q.processed == p.processed
  {
    if p.raised.Some? then p
    else
      var buffer := p.buffer + t.captured;
      if t.receiving then p.(buffer := buffer)
      else
        var audio := Flatten(buffer);
        if |audio| == 0 then p.(buffer := [])
        else
          var encoded := Base64.Encode(audio);
          if |encoded| == 0 then p.(buffer := [])   // "No audio data to send"
          else if t.sendFailure.Some? then p.(buffer := [], dropped := audio, raised := t.sendFailure)
          else p.(buffer := [], sent := p.sent + [AudioAppend(encoded)], processed := p.processed + [audio])
  }

  function Start(buffered: seq<seq<byte>>): Pace {
    Pace(buffered, [], [], [], None)
  }

  /** The pacing loop after the given iterations, starting from a
      microphone holding `buffered`. Every append carries the Base64 of
      non-empty audio that was also handed to the visualiser, one for one
      and in the same order. */
  function PaceAfter(buffered: seq<seq<byte>>, ticks: seq<Tick>): (r: Pace)
    ensures |r.sent| == |r.processed|
    ensures forall k | 0 <= k < |r.sent| ::
      r.processed[k] != [] && r.sent[k] == AudioAppend(Base64.Encode(r.processed[k]))
    ensures r.raised.None? ==> r.dropped == []
    decreases |ticks|
  {
    if |ticks| == 0 then Start(buffered)
    else Step(PaceAfter(buffered, ticks[..|ticks| - 1]), ticks[|ticks| - 1])
  }

  /** Once a send has raised, later iterations change nothing. */
  lemma {:induction false} PaceAfterRaised(buffered: seq<seq<byte>>, ticks: seq<Tick>, n: nat)
    requires n <= |ticks|
    requires PaceAfter(buffered, ticks[..n]).raised.Some?
    ensures PaceAfter(buffered, ticks) == PaceAfter(buffered, ticks[..n])
    decreases |ticks| - n
  {
    if n < |ticks| {
      var m := |ticks| - 1;
      assert ticks[..m][..n] == ticks[..n];
      PaceAfterRaised(buffered, ticks[..m], n);
    } else {
      assert ticks[..n] == ticks;
    }
  }

  /** One iteration moves audio along without losing or reordering it:
      what it captured is appended behind what was buffered, and what it
      drains is handed on or, when the send raises, dropped. */
  lemma StepConserves(p: Pace, t: Tick)
    requires p.raised.None? && p.dropped == []
    ensures var q := Step(p, t);
      Flatten(q.processed) + q.dropped + Flatten(q.buffer)
        == Flatten(p.processed) + Flatten(p.buffer) + Flatten(t.captured)
  {
    var q := Step(p, t);
    FlattenAppend(p.buffer, t.captured);
    if t.receiving {
      assert q.buffer == p.buffer + t.captured;
    } else if q.sent != p.sent {
      FlattenAppend(p.processed, [Drained(p, t)]);
      assert Flatten([Drained(p, t)]) == Drained(p, t) + Flatten([]);
    } else if q.raised.Some? {
      assert q.dropped == Drained(p, t) && q.processed == p.processed;
    } else {
      assert Drained(p, t) == [] && q.processed == p.processed && q.dropped == [];
    }
  }

  /** The audio captured over `ticks` is that of all but the last tick,
      then the last tick's. */
  lemma CapturedSnoc(buffered: seq<seq<byte>>, ticks: seq<Tick>)
    requires |ticks| > 0
    ensures Flatten(buffered + AllCaptured(ticks))
      == Flatten(buffered + AllCaptured(ticks[..|ticks| - 1])) + Flatten(ticks[|ticks| - 1].captured)
  {
    var m := |ticks| - 1;
    var earlier := AllCaptured(ticks[..m]);
    var before := buffered + earlier;
    assert AllCaptured(ticks) == earlier + ticks[m].captured;
    assert buffered + (earlier + ticks[m].captured) == before + ticks[m].captured;
    FlattenAppend(before, ticks[m].captured);
  }

  /** `StepConserves`, stated against the audio the balance started from. */
  lemma StepBalance(p: Pace, t: Tick, before: seq<seq<byte>>)
    requires p.raised.None? && p.dropped == []
    requires Flatten(p.processed) + Flatten(p.buffer) == Flatten(before)
    ensures var q := Step(p, t);
      Flatten(q.processed) + q.dropped + Flatten(q.buffer) == Flatten(before) + Flatten(t.captured)
  {
    StepConserves(p, t);
  }

  /** The balance of `PaceConservation`, carried over one more iteration
      that finds the loop still running. */
  lemma ConservationExtends(buffered: seq<seq<byte>>, ticks: seq<Tick>, p: Pace)
    requires |ticks| > 0 && p == PaceAfter(buffered, ticks[..|ticks| - 1])
    requires p.raised.None?
    requires Flatten(p.processed) + p.dropped + Flatten(p.buffer) == Flatten(buffered + AllCaptured(ticks[..|ticks| - 1]))
    ensures var r := Step(p, ticks[|ticks| - 1]);
      Flatten(r.processed) + r.dropped + Flatten(r.buffer) == Flatten(buffered + AllCaptured(ticks))
  {
    assert p.dropped == [];
    assert Flatten(p.processed) + p.dropped == Flatten(p.processed);
    StepBalance(p, ticks[|ticks| - 1], buffered + AllCaptured(ticks[..|ticks| - 1]));
    CapturedSnoc(buffered, ticks);
  }

  /** No audio is lost or reordered: what was handed on, what a failed send
      dropped and what is still buffered are, in that order, the audio
      buffered at the start followed by everything captured, up to the
      iteration whose send raised if one did. */
  lemma {:induction false} PaceConservation(buffered: seq<seq<byte>>, ticks: seq<Tick>)
    ensures var r := PaceAfter(buffered, ticks);
      exists n | 0 <= n <= |ticks| ::
        Flatten(r.processed) + r.dropped + Flatten(r.buffer) == Flatten(buffered + AllCaptured(ticks[..n]))
        && (r.raised.None? ==> n == |ticks|)
    decreases |ticks|
  {
    var r := PaceAfter(buffered, ticks);
    if |ticks| == 0 {
      assert ticks[..0] == [];
      assert buffered + AllCaptured([]) == buffered;
      assert Flatten(r.processed) + r.dropped + Flatten(r.buffer) == Flatten(buffered + AllCaptured(ticks[..0]));
    } else {
      var m := |ticks| - 1;
      var p := PaceAfter(buffered, ticks[..m]);
      PaceConservation(buffered, ticks[..m]);
      var n :| 0 <= n <= m
        && Flatten(p.processed) + p.dropped + Flatten(p.buffer) == Flatten(buffered + AllCaptured(ticks[..m][..n]))
        && (p.raised.None? ==> n == m);
      assert ticks[..m][..n] == ticks[..n];
      if p.raised.Some? {
        assert r == p;
      } else {
        assert n == m && ticks[..m][..m] == ticks[..m];
        ConservationExtends(buffered, ticks, p);
        assert r == Step(p, ticks[m]);
        assert ticks[..|ticks|] == ticks;
      }
    }
  }

  /** Each append the server receives decodes to the audio handed to the
      visualiser at the same position. */
  lemma AppendsDecode(buffered: seq<seq<byte>>, ticks: seq<Tick>)
    ensures var r := PaceAfter(buffered, ticks);
      forall k | 0 <= k < |r.sent| :: r.sent[k].AudioAppend? && Base64.Decode(r.sent[k].audio) == Some(r.processed[k])
  {
    var r := PaceAfter(buffered, ticks);
    forall k | 0 <= k < |r.sent|
      ensures r.sent[k].AudioAppend? && Base64.Decode(r.sent[k].audio) == Some(r.processed[k])
    {
      Base64.DecodeEncode(r.processed[k]);
    }
  }

  /* ---------------------------------------------------------------- */
  /* One attempt, as a specification                                   */
  /* ---------------------------------------------------------------- */

  /** What the world does to one pass of the outer `while True`. */
  datatype AttemptEnv = AttemptEnv(
    apiKey: Option<string>,   // `os.getenv("OPENAI_API_KEY")`
    micInit: Option<Exc>,     // raised by `AsyncMicrophone()`
    visualInit: Option<Exc>,  // raised by `VisualInterface()`
    connect: Option<Exc>,     // raised by `websockets.connect`
    configSend: Option<Exc>,  // raised by sending `session.update`
    startup: Option<Exc>,     // raised while starting the tasks and the recording
    ticks: seq<Tick>,         // the pacing loop's iterations
    stop: Exc,                // what ends the pacing loop when no send raised
    tasks: Option<Exc>)       // raised by awaiting the websocket and visual tasks

  /** `not api_key` is false: the key is set and non-empty. */
  predicate HasKey(apiKey: Option<string>) {
    apiKey.Some? && apiKey.value != ""
  }

  /** The attempt reaches `websockets.connect` and it succeeds. */
  predicate Connects(env: AttemptEnv) {
    HasKey(env.apiKey) && env.micInit.None? && env.visualInit.None? && env.connect.None?
  }

  /** The attempt reaches the pacing loop. */
  predicate EntersLoop(env: AttemptEnv) {
    Connects(env) && env.configSend.None? && env.startup.None?
  }

  function PaceOf(env: AttemptEnv): Pace {
    PaceAfter([], env.ticks)
  }

  /** The exception that ends the pacing loop. */
  function LoopException(env: AttemptEnv): Exc {
    var p := PaceOf(env);
    if p.raised.Some? then p.raised.value else env.stop
  }

  /** The exception leaving the `async with` body, if any. */
  function BodyEscape(env: AttemptEnv): Option<Exc> {
    if env.configSend.Some? then env.configSend
    else if env.startup.Some? then env.startup
    else if !InnerCatches(LoopException(env)) then Some(LoopException(env))
    else if env.tasks.Some? && !IsException(env.tasks.value) then env.tasks
    else None
  }

  /** The exception reaching the outer handlers, if any. */
  function Escaping(env: AttemptEnv): Option<Exc> {
    if env.micInit.Some? then env.micInit
    else if env.visualInit.Some? then env.visualInit
    else if env.connect.Some? then env.connect
    else BodyEscape(env)
  }

  function AttemptOutcome(env: AttemptEnv): Outcome {
    if !HasKey(env.apiKey) then NoApiKey
    else match Escaping(env)
      case None => Completed
      case Some(e) => Handle(e)
  }

  /** The events sent on the attempt's connection. */
  function ConversationSent(settings: Settings, env: AttemptEnv): seq<OutEvent> {
    if env.configSend.Some? then []
    else [SessionUpdateFor(settings)] + (if env.startup.Some? then [] else PaceOf(env).sent)
  }

  /** Without a key nothing is created and the attempt returns. */
  lemma NoKeyReturns(env: AttemptEnv)
    requires !HasKey(env.apiKey)
    ensures AttemptOutcome(env) == NoApiKey && !Connects(env) && !EntersLoop(env)
  {
  }

  /** `session.update` is the first event on every connection, and every
      later one is an append whose payload decodes to the audio handed to the
      visualiser at the same position (`PaceConservation` ties that audio to
      the captured chunks, in capture order). */
  lemma SessionUpdateFirst(settings: Settings, env: AttemptEnv)
    ensures var sent := ConversationSent(settings, env);
      && (sent != [] <==> env.configSend.None?)
      && (sent != [] ==> sent[0] == SessionUpdateFor(settings))
      && (|sent| > 1 ==> env.startup.None?)
      && forall k | 1 <= k < |sent| ::
           sent[k].AudioAppend? && Base64.Decode(sent[k].audio) == Some(PaceOf(env).processed[k - 1])
  {
    var sent := ConversationSent(settings, env);
    if env.configSend.None? && env.startup.None? {
      var p := PaceOf(env);
      assert sent == [SessionUpdateFor(settings)] + p.sent;
      forall k | 1 <= k < |sent|
        ensures sent[k].AudioAppend? && Base64.Decode(sent[k].audio) == Some(p.processed[k - 1])
      {
        assert sent[k] == p.sent[k - 1];
        Base64.DecodeEncode(p.processed[k - 1]);
      }
    }
  }

  /** A reconnect happens only for a keepalive timeout, and only when it
      surfaces before the pacing loop starts: once the loop runs, every
      Exception it or the tasks raise is caught inside the attempt, so a
      keepalive timeout in mid-session ends the program instead of
      reconnecting. */
  lemma RetryOnlyBeforeLoop(env: AttemptEnv)
    ensures AttemptOutcome(env) == Retry <==>
      HasKey(env.apiKey) && Escaping(env).Some? && Escaping(env).value.ConnectionClosed?
      && Contains(Escaping(env).value.reason, KeepaliveTimeout)
    ensures AttemptOutcome(env) == Retry ==> !EntersLoop(env)
    ensures EntersLoop(env) && LoopException(env).ConnectionClosed? ==> AttemptOutcome(env) != Retry
  {
  }

  /** The attempt finishes normally exactly when the key is set, nothing
      raised before the loop, the loop ended on an exception the inner
      handlers catch, and the tasks raised at most an Exception. */
  lemma CompletedIff(env: AttemptEnv)
    ensures AttemptOutcome(env) == Completed <==>
      EntersLoop(env) && InnerCatches(LoopException(env))
      && (env.tasks.None? || IsException(env.tasks.value))
  {
  }

  /* ---------------------------------------------------------------- */
  /* The outer loop, as a specification                                */
  /* ---------------------------------------------------------------- */

  datatype RunEnd =
    | Returned          // `realtime_api` returns
    | Raised(e: Exc)    // an exception leaves `realtime_api`
    | OutOfScript       // every scripted attempt asked for a retry

  datatype RunReport = RunReport(attempts: nat, end: RunEnd)

  /** The outer `while True` over a script of attempts: it retries while
      attempts end in Retry and stops at the first that does not. */
  function RealtimeRun(script: seq<AttemptEnv>): (r: RunReport)
    ensures r.attempts <= |script|
    ensures forall k | 0 <= k < r.attempts - 1 :: AttemptOutcome(script[k]) == Retry
    ensures r.end == OutOfScript <==>
      r.attempts == |script| && forall k | 0 <= k < |script| :: AttemptOutcome(script[k]) == Retry
    ensures r.end != OutOfScript ==> 0 < r.attempts && AttemptOutcome(script[r.attempts - 1]) != Retry
    ensures r.end.Raised? ==> AttemptOutcome(script[r.attempts - 1]) == Propagated(r.end.e)
    ensures r.end == Returned ==> !AttemptOutcome(script[r.attempts - 1]).Propagated?
    decreases |script|
  {
    if |script| == 0 then RunReport(0, OutOfScript)
    else match AttemptOutcome(script[0])
      case Retry =>
        var rest := RealtimeRun(script[1..]);
        RunReport(rest.attempts + 1, rest.end)
      case Propagated(e) => RunReport(1, Raised(e))
      case _ => RunReport(1, Returned)
  }

  /** After `i` retried attempts, the run continues as a run of the rest. */
  lemma {:induction false} RunAfterRetries(script: seq<AttemptEnv>, i: nat)
    requires i <= |script|
    requires forall k | 0 <= k < i :: AttemptOutcome(script[k]) == Retry
    ensures RealtimeRun(script) ==
      RunReport(i + RealtimeRun(script[i..]).attempts, RealtimeRun(script[i..]).end)
    decreases i
  {
    if i > 0 {
      assert script[1..][i - 1..] == script[i..];
      RunAfterRetries(script[1..], i - 1);
    }
  }

  /** What the process does besides talking to the server. */
  datatype HostEffect = ReconnectDelay | PygameQuit

  /** One attempt waits a second before a retry, then its `finally` quits pygame. */
  function AttemptHostLog(env: AttemptEnv): seq<HostEffect> {
    (if AttemptOutcome(env) == Retry then [ReconnectDelay] else []) + [PygameQuit]
  }

  function HostLog(envs: seq<AttemptEnv>): seq<HostEffect>
    decreases |envs|
  {
    if |envs| == 0 then [] else HostLog(envs[..|envs| - 1]) + AttemptHostLog(envs[|envs| - 1])
  }

  /* ---------------------------------------------------------------- */
  /* The collaborators realtime_api changes                            */
  /* ---------------------------------------------------------------- */

  /** `AsyncMicrophone`, reduced to the state main.py reads and changes. */
  class Microphone {
    var isReceiving: bool
    var buffer: seq<seq<byte>>
    var recording: bool
    var closed: bool

    constructor ()
      ensures !isReceiving && buffer == [] && !recording && !closed
    {
      isReceiving := false;
      buffer := [];
      recording := false;
      closed := false;
    }

    /** The capture callback and the inbound handler, while the pacing loop sleeps. */
    method Deliver(chunks: seq<seq<byte>>, receiving: bool)
      modifies this
      ensures buffer == old(buffer) + chunks && isReceiving == receiving
      ensures recording == old(recording) && closed == old(closed)
    {
      buffer := buffer + chunks;
      isReceiving := receiving;
    }

    /** `get_audio_data`: everything buffered, in order; the buffer is emptied. */
    method GetAudioData() returns (data: seq<byte>)
      modifies this
      ensures data == Flatten(old(buffer)) && buffer == []
      ensures isReceiving == old(isReceiving) && recording == old(recording) && closed == old(closed)
    {
      data := Flatten(buffer);
      buffer := [];
    }

    method StartRecording()
      modifies this
      ensures recording
      ensures buffer == old(buffer) && isReceiving == old(isReceiving) && closed == old(closed)
    {
      recording := true;
    }

    method StopRecording()
      modifies this
      ensures !recording
      ensures buffer == old(buffer) && isReceiving == old(isReceiving) && closed == old(closed)
    {
      recording := false;
    }

    method Close()
      modifies this
      ensures closed
      ensures buffer == old(buffer) && isReceiving == old(isReceiving) && recording == old(recording)
    {
      closed := true;
    }
  }

  /** The websocket connection: the events it delivered and whether it is closed. */
  class WebSocket {
    var sent: seq<OutEvent>
    var closed: bool

    constructor ()
      ensures sent == [] && !closed
    {
      sent := [];
      closed := false;
    }

    /** `send`: delivers the event, or raises `failure` and delivers nothing. */
    method Send(event: OutEvent, failure: Option<Exc>) returns (raised: Option<Exc>)
      modifies this
      ensures raised == failure
      ensures sent == old(sent) + (if failure.None? then [event] else [])
      ensures closed == old(closed)
    {
      raised := failure;
      if failure.None? {
        sent := sent + [event];
      }
    }

    /** `close`; closing twice is harmless. */
    method Close()
      modifies this
      ensures closed && sent == old(sent)
    {
      closed := true;
    }
  }

  /** `VisualInterface`: the audio it was shown and the `set_active` calls main.py made. */
  class VisualInterface {
    var shown: seq<seq<byte>>
    var activeCalls: seq<bool>

    constructor ()
      ensures shown == [] && activeCalls == []
    {
      shown := [];
      activeCalls := [];
    }

    method ProcessAudioData(data: seq<byte>)
      modifies this
      ensures shown == old(shown) + [data] && activeCalls == old(activeCalls)
    {
      shown := shown + [data];
    }

    method SetActive(active: bool)
      modifies this
      ensures activeCalls == old(activeCalls) + [active] && shown == old(shown)
    {
      activeCalls := activeCalls + [active];
    }
  }

  class ExitEvent {
    var isSet: bool

    constructor ()
      ensures !isSet
    {
      isSet := false;
    }

    method Set()
      modifies this
      ensures isSet
    {
      isSet := true;
    }
  }

  /** The process around the session: the one-second waits and pygame. */
  class Runtime {
    var log: seq<HostEffect>

    constructor ()
      ensures log == []
    {
      log := [];
    }

    method WaitBeforeReconnect()
      modifies this
      ensures log == old(log) + [ReconnectDelay]
    {
      log := log + [ReconnectDelay];
    }

    method QuitPygame()
      modifies this
      ensures log == old(log) + [PygameQuit]
    {
      log := log + [PygameQuit];
    }
  }

  /* ---------------------------------------------------------------- */
  /* The imperative session                                            */
  /* ---------------------------------------------------------------- */

  /** One pass through the body of the pacing loop: the sleep, during
      which the microphone captures, then the drain and the send unless the
      assistant is speaking. It does what `Step` says, and returns the
      exception a raising send ends the loop with. */
  method PaceOnce(mic: Microphone, websocket: WebSocket, visual: VisualInterface, t: Tick,
                  ghost p: Pace, ghost sentBefore: seq<OutEvent>, ghost shownBefore: seq<seq<byte>>)
    returns (raised: Option<Exc>)
    requires p.raised.None? && mic.buffer == p.buffer
    requires websocket.sent == sentBefore + p.sent && visual.shown == shownBefore + p.processed
    modifies mic, websocket, visual
    ensures var q := Step(p, t);
      && raised == q.raised
      && mic.buffer == q.buffer
      && websocket.sent == sentBefore + q.sent
      && visual.shown == shownBefore + q.processed
    ensures mic.recording == old(mic.recording) && mic.closed == old(mic.closed)
    ensures websocket.closed == old(websocket.closed) && visual.activeCalls == old(visual.activeCalls)
  {
    raised := None;
    mic.Deliver(t.captured, t.receiving);   // during `await asyncio.sleep(0.01)`
    if !mic.isReceiving {
      var audioData := mic.GetAudioData();
      if |audioData| > 0 {
        var base64Audio := Base64.Encode(audioData);
        if |base64Audio| > 0 {
          raised := websocket.Send(AudioAppend(base64Audio), t.sendFailure);
          if raised.Some? {
            return;
          }
          visual.ProcessAudioData(audioData);
        }
      }
    }
  }

  /** The pacing loop and the exception that ends it. Nothing in it sets
      `exit_event`, so it ends only by an exception: a send that raises,
      or `stop` once the scripted iterations are used up. */
  method PacingLoop(mic: Microphone, websocket: WebSocket, visual: VisualInterface, exitEvent: ExitEvent,
                    ticks: seq<Tick>, stop: Exc)
    returns (e: Exc)
    requires !exitEvent.isSet
    modifies mic, websocket, visual
    ensures var p := PaceAfter(old(mic.buffer), ticks);
      && mic.buffer == p.buffer
      && websocket.sent == old(websocket.sent) + p.sent
      && visual.shown == old(visual.shown) + p.processed
      && e == (if p.raised.Some? then p.raised.value else stop)
    ensures mic.recording == old(mic.recording) && mic.closed == old(mic.closed)
    ensures websocket.closed == old(websocket.closed) && visual.activeCalls == old(visual.activeCalls)
  {
    ghost var buffered := mic.buffer;
    var i := 0;
    while !exitEvent.isSet
      invariant 0 <= i <= |ticks|
      invariant PaceAfter(buffered, ticks[..i]).raised.None?
      invariant mic.buffer == PaceAfter(buffered, ticks[..i]).buffer
      invariant websocket.sent == old(websocket.sent) + PaceAfter(buffered, ticks[..i]).sent
      invariant visual.shown == old(visual.shown) + PaceAfter(buffered, ticks[..i]).processed
      invariant mic.recording == old(mic.recording) && mic.closed == old(mic.closed)
      invariant websocket.closed == old(websocket.closed) && visual.activeCalls == old(visual.activeCalls)
      decreases |ticks| - i
    {
      if i == |ticks| {
        assert ticks[..i] == ticks;
        return stop;
      }
      assert ticks[..i + 1][..i] == ticks[..i];
      var raised := PaceOnce(mic, websocket, visual, ticks[i], PaceAfter(buffered, ticks[..i]),
                             old(websocket.sent), old(visual.shown));
      if raised.Some? {
        PaceAfterRaised(buffered, ticks, i + 1);
        return raised.value;
      }
      i := i + 1;
    }
    assert false;
  }

  /** The body of `async with websockets.connect(...)`, from the
      `session.update` send to awaiting the tasks. */
  method Converse(settings: Settings, env: AttemptEnv, mic: Microphone, websocket: WebSocket,
                  visual: VisualInterface, exitEvent: ExitEvent)
    returns (escaping: Option<Exc>)
    requires mic.buffer == [] && !mic.recording && !mic.closed
    requires websocket.sent == [] && !websocket.closed
    requires visual.shown == [] && visual.activeCalls == []
    requires !exitEvent.isSet
    modifies mic, websocket, visual, exitEvent
    ensures escaping == BodyEscape(env)
    ensures websocket.sent == ConversationSent(settings, env)
    ensures env.configSend.None? && env.startup.None? ==>
      && exitEvent.isSet && !mic.recording && mic.closed && websocket.closed
      && visual.activeCalls == [false]
      && visual.shown == PaceOf(env).processed
      && mic.buffer == PaceOf(env).buffer
    ensures env.configSend.Some? || env.startup.Some? ==>
      visual.activeCalls == [] && visual.shown == [] && !mic.closed
  {
    var raised := websocket.Send(SessionUpdateFor(settings), env.configSend);
    if raised.Some? {
      return raised;
    }
    if env.startup.Some? {
      return env.startup;
    }
    mic.StartRecording();
    var e := PacingLoop(mic, websocket, visual, exitEvent, env.ticks, env.stop);
    // the inner `finally`
    exitEvent.Set();
    mic.StopRecording();
    mic.Close();
    websocket.Close();
    visual.SetActive(false);
    if !InnerCatches(e) {
      return Some(e);
    }
    // awaiting `ws_task` and `visual_task`; an Exception there is logged
    if env.tasks.Some? && !IsException(env.tasks.value) {
      return env.tasks;
    }
    return None;
  }

  /** The body of the outer `try` once the key is known to be set: create
      the microphone and the visual interface, connect and converse.
      `lastMic` and `lastSocket` are what the names `mic` and `websocket`
      held before; a stage that is not reached leaves its name as it was.
      It changes no object that existed before it. */
  method AttemptBody(settings: Settings, env: AttemptEnv, lastMic: Microphone?, lastSocket: WebSocket?)
    returns (escaping: Option<Exc>, mic: Microphone?, websocket: WebSocket?, visual: VisualInterface?)
    requires HasKey(env.apiKey)
    ensures escaping == Escaping(env)
    ensures env.micInit.None? ==> mic != null && fresh(mic)
    ensures env.micInit.Some? ==> mic == lastMic
    ensures Connects(env) ==>
      websocket != null && fresh(websocket) && websocket.closed && websocket.sent == ConversationSent(settings, env)
    ensures !Connects(env) ==> websocket == lastSocket
    ensures env.micInit.None? && env.visualInit.None? <==> visual != null
    ensures visual != null ==> fresh(visual)
    ensures visual != null && EntersLoop(env) ==>
      visual.activeCalls == [false] && visual.shown == PaceOf(env).processed
    ensures visual != null && !EntersLoop(env) ==> visual.activeCalls == [] && visual.shown == []
  {
    mic, websocket, visual := lastMic, lastSocket, null;
    var exitEvent := new ExitEvent();
    if env.micInit.Some? {
      return env.micInit, mic, websocket, visual;
    }
    mic := new Microphone();
    if env.visualInit.Some? {
      return env.visualInit, mic, websocket, visual;
    }
    visual := new VisualInterface();
    if env.connect.Some? {
      return env.connect, mic, websocket, visual;
    }
    websocket := new WebSocket();
    escaping := Converse(settings, env, mic, websocket, visual, exitEvent);
    websocket.Close();   // leaving `async with`
  }

  /** One pass of the outer `while True`, including its `except` clauses
      and its `finally`. `lastMic` and `lastSocket` are the objects the
      names `mic` and `websocket` still hold from an earlier pass, which
      `"mic" in locals()` also sees. */
  method RunAttempt(settings: Settings, env: AttemptEnv, runtime: Runtime,
                    lastMic: Microphone?, lastSocket: WebSocket?)
    returns (outcome: Outcome, mic: Microphone?, websocket: WebSocket?, visual: VisualInterface?)
    modifies runtime, lastMic, lastSocket
    ensures outcome == AttemptOutcome(env)
    ensures runtime.log == old(runtime.log) + AttemptHostLog(env)
    ensures HasKey(env.apiKey) && env.micInit.None? ==> mic != null && fresh(mic)
    ensures !(HasKey(env.apiKey) && env.micInit.None?) ==> mic == lastMic
    ensures Connects(env) ==> websocket != null && fresh(websocket) && websocket.sent == ConversationSent(settings, env)
    ensures !Connects(env) ==> websocket == lastSocket
    ensures lastSocket != null ==> lastSocket.sent == old(lastSocket.sent)
    ensures HasKey(env.apiKey) && env.micInit.None? && lastMic != null ==>
      && lastMic.buffer == old(lastMic.buffer) && lastMic.isReceiving == old(lastMic.isReceiving)
      && lastMic.recording == old(lastMic.recording) && lastMic.closed == old(lastMic.closed)
    ensures Connects(env) && lastSocket != null ==> lastSocket.closed == old(lastSocket.closed)
    ensures mic != null ==> !mic.recording && mic.closed
    ensures websocket != null ==> websocket.closed
    ensures HasKey(env.apiKey) && env.micInit.None? && env.visualInit.None? <==> visual != null
    ensures visual != null ==> fresh(visual)
    ensures visual != null && EntersLoop(env) ==>
      visual.activeCalls == [false] && visual.shown == PaceOf(env).processed
    ensures visual != null && !EntersLoop(env) ==> visual.activeCalls == [] && visual.shown == []
  {
    mic, websocket, visual := lastMic, lastSocket, null;
    if !HasKey(env.apiKey) {
      outcome := NoApiKey;
    } else {
      var escaping;
      escaping, mic, websocket, visual := AttemptBody(settings, env, lastMic, lastSocket);
      outcome := if escaping.None? then Completed else Handle(escaping.value);
      if outcome == Retry {
        runtime.WaitBeforeReconnect();
      }
    }
    // the outer `finally`
    if mic != null {
      mic.StopRecording();
      mic.Close();
    }
    if websocket != null {
      websocket.Close();
    }
    runtime.QuitPygame();
  }

  /** `realtime_api` over a script of attempts. */
  method RealtimeApi(settings: Settings, script: seq<AttemptEnv>, runtime: Runtime)
    returns (report: RunReport)
    modifies runtime
    ensures report == RealtimeRun(script)
    ensures runtime.log == old(runtime.log) + HostLog(script[..report.attempts])
  {
    var mic: Microphone? := null;
    var websocket: WebSocket? := null;
    var i := 0;
    while true
      invariant 0 <= i <= |script|
      invariant forall k | 0 <= k < i :: AttemptOutcome(script[k]) == Retry
      invariant runtime.log == old(runtime.log) + HostLog(script[..i])
      invariant mic != null ==> fresh(mic)
      invariant websocket != null ==> fresh(websocket)
      decreases |script| - i
    {
      RunAfterRetries(script, i);
      if i == |script| {
        return RunReport(i, OutOfScript);
      }
      var outcome, m, w, _ := RunAttempt(settings, script[i], runtime, mic, websocket);
      mic, websocket := m, w;
      assert script[..i + 1][..i] == script[..i];
      i := i + 1;
      if outcome != Retry {
        assert script[i - 1..][1..] == script[i..];
        return RunReport(i, if outcome.Propagated? then Raised(outcome.e) else Returned);
      }
    }
  }
}
