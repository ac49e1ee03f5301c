# Voice assistant realtime session, modelled in Dafny

This project models the core of the agency voice interface, a Python voice
assistant that streams microphone audio to a realtime speech API over a
websocket. It also models the tool through which the assistant hands work
to an agent swarm. Four modules make up the model.

- `Session` (session.dfy) models `realtime_api`, the reconnecting session
  in `src/voice_assistant/main.py`. The behaviour it covers:
  - one attempt reads the API key, then creates the microphone and the
    visual interface;
  - it connects and sends `session.update` first;
  - it starts recording, then runs the pacing loop. Every 10 ms, unless the
    assistant is speaking (`mic.is_receiving`), the loop drains the
    microphone and sends the audio as one Base64 `input_audio_buffer.append`
    event. It hands the same audio to the visualiser after the send;
  - the cleanup of both `finally` blocks;
  - the outer `while True` reconnects after a keepalive ping timeout and
    stops on everything else.

  It is written two ways:
  - Pure specification functions: `Step` and `PaceAfter` for the pacing
    loop, `AttemptOutcome` for one attempt, `RealtimeRun` for the outer
    loop.
  - Imperative methods over classes: `Microphone`, `WebSocket`,
    `VisualInterface`, `ExitEvent` and `Runtime`, driven by `PacingLoop`,
    `Converse`, `RunAttempt` and `RealtimeApi`. Each method's postcondition
    ties the objects' new state to the pure functions.

  A value of type `AttemptEnv` stands for what the world does to one
  attempt:
  - which calls raise;
  - what the microphone captures and whether the assistant is speaking at
    each pacing iteration;
  - which exception finally interrupts the loop.

  Nothing in the loop sets `exit_event` before the inner `finally`, so the
  loop ends only by an exception. A send may raise it. Otherwise a scripted
  `stop` raises it (Ctrl+C, cancellation, or any other error) once the
  scripted iterations are used up.
- `Base64` (base64.dfy) models `base64_encode_audio`
  (`src/realtime_api_async_python/utils.py`) as standard Base64 with `=`
  padding, section 4 of RFC 4648. It pairs the encoder with the strict
  decoder of that section and proves that the two are inverse.
- `EventLog` (event_log.dfy) models `log_ws_event` from the same file. It is
  a pure function that returns the line it would log. The emoji table is
  copied entry for entry.
- `SendMessage` (send_message.dfy) models the `SendMessageAsync` tool
  (`src/voice_assistant/tools/SendMessageAsync.py`). The tool resolves an
  agency, and optionally an agent in it, by name. It records the
  `get_completion` call it makes and returns one of its three reply
  strings.

The main loop imports `base64_encode_audio` and `log_ws_event` from
`voice_assistant.utils`. That package is not part of this model. It is
assumed to define the same functions as `src/realtime_api_async_python/utils.py`,
so `Session` uses `Base64.Encode` for it.

A keepalive timeout during the pacing loop does not reconnect. Of the
exceptions raised inside the `async with` body, only one that leaves it
reaches the reconnect handler at lines 131-137 of
`src/voice_assistant/main.py`:

- A send in the pacing loop that raises `ConnectionClosedError` is caught
  by the inner `except Exception` at line 111.
- One raised by the websocket task is caught by the `except Exception` at
  line 126.

In both cases the attempt ends normally and the outer loop breaks.
`Session.RetryOnlyBeforeLoop` states this: an attempt that reached the
pacing loop never ends in a reconnect. A reconnect happens only when
something before the pacing loop raises a keepalive timeout: creating the
microphone or the visual interface, connecting, sending `session.update`
or starting the tasks.

## Model

| member | source | states |
|---|---|---|
| Base64.Encode | src/realtime_api_async_python/utils.py:12-13 | The encoding of n bytes has 4·⌈n/3⌉ characters, and it is empty exactly when the input is empty |
| Base64.ValueOf | src/realtime_api_async_python/utils.py:13 | Every character of the RFC 4648 alphabet stands for a 6-bit value, and encoding that value gives the character back |
| Base64.EncodeWellFormed | src/realtime_api_async_python/utils.py:12-13 | Every output character is in the alphabet except trailing pads. There are two pads when n mod 3 = 1, one when n mod 3 = 2, and none otherwise |
| Base64.DecodeEncode | src/realtime_api_async_python/utils.py:12-13 | Decoding the encoding of any byte string gives that byte string back |
| Base64.EncodeDecode | src/realtime_api_async_python/utils.py:12-13 | Any string the strict decoder accepts is the encoding of the bytes it decodes to |
| Base64.DecodeIffEncode | src/realtime_api_async_python/utils.py:12-13 | A string decodes to given bytes if and only if it is their encoding |
| EventLog.LogWsEvent | src/realtime_api_async_python/utils.py:29-66 | The logged line is longer than the event type it reports |
| EventLog.LoggedType | src/realtime_api_async_python/utils.py:30-66 | The line opens with the emoji for the event's type, a space, the direction icon and a space. It ends with a space and the event's own type, and its length is exactly the opening's plus the type's, so nothing stands in between. An event without a type is logged as "❓ <icon> Unknown" |
| EventLog.EventType | src/realtime_api_async_python/utils.py:30 | The event's "type", or "Unknown". Characterised by `LoggedType` |
| EventLog.Emoji | src/realtime_api_async_python/utils.py:64 | The table lookup with the "❓" fallback. Characterised by `EmojiLookup` |
| EventLog.DirectionIcon | src/realtime_api_async_python/utils.py:65 | The "Out" or "In" icon. Characterised by `DirectionOutIff` |
| EventLog.Lower | src/realtime_api_async_python/utils.py:65 | `direction.lower()` on ASCII letters. Characterised by `DirectionOutIff` |
| EventLog.EmojiLookup | src/realtime_api_async_python/utils.py:31-64 | A known type gets its table emoji, which is never the fallback. Any other type gets "❓", and "Unknown" is not in the table |
| EventLog.DirectionOutIff | src/realtime_api_async_python/utils.py:65 | The icon is "⬆️ - Out" if and only if the direction is the eight letters of "outgoing" in any mix of upper and lower case |
| EventLog.OutgoingIsOut | src/realtime_api_async_python/utils.py:65 | The direction "outgoing" that main.py passes gets the "Out" icon |
| EventLog.SessionUpdateLine | src/voice_assistant/main.py:75 | The configuration event is logged as "🛠️ ⬆️ - Out session.update" |
| EventLog.AudioAppendLine | src/voice_assistant/main.py:103 | Every audio event, whatever audio it carries, is logged as "🎤 ⬆️ - Out input_audio_buffer.append" |
| SendMessage.FirstNamed | src/voice_assistant/tools/SendMessageAsync.py:47-50 | The result is the first agent with the name, or none when no agent has it |
| SendMessage.IsNamed | src/voice_assistant/tools/SendMessageAsync.py:46 | The truthiness of `agent_name`: neither None nor empty. Characterised by `Resolve`, whose agent is the default exactly when the name is not truthy |
| SendMessage.Names | src/voice_assistant/tools/SendMessageAsync.py:52 | The listed names are the agents' names, one per agent and in the agency's order |
| SendMessage.JoinSnoc | src/voice_assistant/tools/SendMessageAsync.py:52 | Joining one more name adds the separator and that name at the end, so names appear in list order |
| SendMessage.JoinLength | src/voice_assistant/tools/SendMessageAsync.py:52 | The joined text's length is the names' total length plus one separator between each two. `JoinSnoc` states the content |
| SendMessage.Resolve | src/voice_assistant/tools/SendMessageAsync.py:44-54 | The agency is missing if and only if its name is not registered. The agent is missing if and only if a non-empty name matches no agent. Without a name the default agent is used. With a name, the first agent object of that name in the agency's list is used, told apart from later namesakes by its identity |
| SendMessage.Join | src/voice_assistant/tools/SendMessageAsync.py:52 | `', '.join`. Characterised by `JoinSnoc` and `JoinLength` |
| SendMessage.Reply | src/voice_assistant/tools/SendMessageAsync.py:43-63 | The string `send_message` returns for each resolution. Characterised by `RepliesDistinct`; `SendMessageAsync.SendMessage` is proved to return it |
| SendMessage.AgencyNotFound | src/voice_assistant/tools/SendMessageAsync.py:63 | The reply for an unregistered agency. Characterised by `RepliesDistinct`: it is the only reply opening with "Agency '" |
| SendMessage.AgentNotFound | src/voice_assistant/tools/SendMessageAsync.py:52 | The reply for a named agent that is missing, listing the agency's agents. Characterised by `RepliesDistinct`: it is the only reply opening with "Agent '". `Names`, `JoinSnoc` and `JoinLength` state the listing |
| SendMessage.LaterNamesakeNotChosen | src/voice_assistant/tools/SendMessageAsync.py:47-50 | When several agents share the requested name, an agent object that first appears after an earlier namesake is never the recipient |
| SendMessage.RepliesDistinct | src/voice_assistant/tools/SendMessageAsync.py:43-63 | The reply starts with "Agency '" if and only if the agency is missing, and with "Agent '" if and only if the agent is missing. It is the fixed success text if and only if the message was sent |
| SendMessage.SendMessageAsync.constructor | src/voice_assistant/tools/SendMessageAsync.py:29-36 | The tool holds the message, the agency name and the optional agent name, and has made no calls yet |
| SendMessage.SendMessageAsync.SendMessage | src/voice_assistant/tools/SendMessageAsync.py:43-63 | The tool returns the reply for the resolution. It makes exactly one completion call, with the message and the resolved recipient, when the recipient resolves, and none otherwise. `get_completion` is assumed to return normally |
| SendMessage.SendMessageAsync.Run | src/voice_assistant/tools/SendMessageAsync.py:39-41 | Returns the same string and makes the same calls as `SendMessage` |
| Session.ContainsIff | src/voice_assistant/main.py:132 | The substring test holds exactly when the phrase occurs at some position of the message |
| Session.Contains | src/voice_assistant/main.py:132 | Python's `in` on strings. Characterised by `ContainsIff` |
| Session.IsException | src/voice_assistant/main.py:140 | `isinstance(e, Exception)`: a closed connection or any other error, but not Ctrl+C or a cancellation. Characterised by `HandleClassifies` and `CompletedIff` |
| Session.InnerCatches | src/voice_assistant/main.py:109-111 | What `except KeyboardInterrupt` and `except Exception` around the pacing loop catch. Characterised by `CompletedIff` and `RetryOnlyBeforeLoop` |
| Session.Handle | src/voice_assistant/main.py:131-142 | The outer `except` clauses. Characterised by `HandleClassifies` and `KeepaliveRetried` |
| Session.HandleClassifies | src/voice_assistant/main.py:131-142 | Only a closed connection whose message contains "keepalive ping timeout" is retried. Every other Exception stops the loop, and anything that is not an Exception propagates |
| Session.KeepaliveRetried | src/voice_assistant/main.py:131-139 | A keepalive timeout is retried whatever text surrounds the phrase. A close for any other reason stops the loop |
| Session.Step | src/voice_assistant/main.py:92-108 | While the assistant speaks nothing is sent and the captured audio stays buffered. Otherwise the buffer is drained. Non-empty drained audio is sent as the Base64 append event and then handed to the visualiser. A raising send hands nothing on, drops exactly the drained audio, empties the buffer and records its own exception. The loop raises exactly when the assistant is silent, the drained audio is non-empty and the send fails. After a raise nothing changes |
| Session.PaceAfter | src/voice_assistant/main.py:91-108 | Sent appends and visualised chunks correspond one for one and in order. Each append carries the Base64 of a non-empty chunk |
| Session.PaceAfterRaised | src/voice_assistant/main.py:104-111 | Once a send has raised, later iterations change nothing |
| Session.StepConserves | src/voice_assistant/main.py:94-106 | One iteration neither loses nor reorders audio. What was captured goes behind the buffer, and what was drained is handed on or dropped by a raising send |
| Session.PaceConservation | src/voice_assistant/main.py:91-108 | The audio handed on, then the audio dropped, then the audio still buffered, is exactly the captured audio in capture order, up to the iteration whose send raised |
| Session.AppendsDecode | src/voice_assistant/main.py:97-106 | Each append the server receives decodes to the chunk visualised at the same position |
| Session.SessionUpdateFor | src/voice_assistant/main.py:58-74 | The `session.update` event: text and audio modalities, the instructions, voice "shimmer", "pcm16" in and out, "server_vad" turn detection with the configured threshold, padding and silence duration, and the tool schemas. `SessionUpdateFirst` places it first |
| Session.ConversationSent | src/voice_assistant/main.py:55-108 | The events delivered on one connection. Characterised by `SessionUpdateFirst`; `Converse` is proved to deliver them |
| Session.AttemptOutcome | src/voice_assistant/main.py:38-142 | How one attempt ends, from the first stage that raises (`Escaping`, `BodyEscape`). Characterised by `NoKeyReturns`, `RetryOnlyBeforeLoop` and `CompletedIff`; `RunAttempt` is proved to end as it says |
| Session.HasKey | src/voice_assistant/main.py:40 | `not api_key` is false: the key is set and not empty. Characterised by `NoKeyReturns` |
| Session.NoKeyReturns | src/voice_assistant/main.py:39-42 | Without a non-empty key the attempt returns without connecting |
| Session.SessionUpdateFirst | src/voice_assistant/main.py:55-108 | On a connection, the first event is `session.update` ("shimmer", "pcm16", "server_vad", text and audio modalities). Every later event is an append that decodes to the audio one pacing iteration drained and handed to the visualiser, at the same position. That audio may join several captured chunks |
| Session.RetryOnlyBeforeLoop | src/voice_assistant/main.py:91-142 | An attempt is retried exactly when the exception reaching the outer handler is a keepalive close. Once the pacing loop runs, no exception leads to a retry |
| Session.CompletedIff | src/voice_assistant/main.py:91-130 | The attempt ends normally exactly when it reached the loop, the loop ended on something the inner handlers catch, and the tasks raised at most an Exception |
| Session.RealtimeRun | src/voice_assistant/main.py:37-142 | Every attempt before the last was retried. The run stops at the first attempt that is not retried. It returns unless that attempt's exception propagated, in which case that exception is raised |
| Session.RunAfterRetries | src/voice_assistant/main.py:37-137 | After a number of retried attempts, the run continues exactly as a run of the remaining attempts |
| Session.Microphone.GetAudioData | src/voice_assistant/main.py:95 | Returns everything buffered, in order, and empties the buffer |
| Session.Microphone.Deliver | src/voice_assistant/main.py:93-94 | During the sleep, the capture callback appends chunks and the inbound handler sets `is_receiving` |
| Session.Microphone.constructor | src/voice_assistant/main.py:52 | A new `AsyncMicrophone` is not receiving, has an empty buffer, is not recording and is not closed. This starting state is assumed |
| Session.Microphone.StartRecording | src/voice_assistant/main.py:88 | Recording is on, and the buffer, `is_receiving` and the closed flag are unchanged |
| Session.Microphone.StopRecording | src/voice_assistant/main.py:117 | Recording is off, and the buffer, `is_receiving` and the closed flag are unchanged. The outer `finally` calls it again at line 145 |
| Session.Microphone.Close | src/voice_assistant/main.py:118 | The microphone is closed, and the buffer, `is_receiving` and recording are unchanged. The outer `finally` calls it again at line 146 |
| Session.WebSocket.Send | src/voice_assistant/main.py:104 | Delivers the event, or raises and delivers nothing |
| Session.WebSocket.Close | src/voice_assistant/main.py:119 | The socket is closed and what it delivered is unchanged. Closing again, as the outer `finally` does at line 148, is harmless |
| Session.WebSocket.constructor | src/voice_assistant/main.py:55 | A new connection has delivered nothing and is open. This starting state is assumed |
| Session.VisualInterface.ProcessAudioData | src/voice_assistant/main.py:106 | The visualiser is shown the chunk, after what it was shown before |
| Session.VisualInterface.SetActive | src/voice_assistant/main.py:120 | Records the `set_active` call |
| Session.VisualInterface.constructor | src/voice_assistant/main.py:53 | A new visual interface has been shown nothing and has had no `set_active` calls |
| Session.ExitEvent.constructor | src/voice_assistant/main.py:44 | A new `asyncio.Event` is not set |
| Session.ExitEvent.Set | src/voice_assistant/main.py:116 | The exit event is set |
| Session.Runtime.WaitBeforeReconnect | src/voice_assistant/main.py:136 | The one-second wait is appended to the host log |
| Session.Runtime.QuitPygame | src/voice_assistant/main.py:149 | `pygame.quit()` is appended to the host log |
| Session.PaceOnce | src/voice_assistant/main.py:93-106 | One iteration leaves the microphone buffer, the delivered events and the visualised chunks as `Step` says, and returns the exception of a raising send |
| Session.PacingLoop | src/voice_assistant/main.py:91-108 | The microphone buffer, the delivered events and the visualised chunks end as `PaceAfter` says. The exception that ends the loop is the raising send's, or else the stop |
| Session.Converse | src/voice_assistant/main.py:55-127 | The delivered events are `session.update` and then the pacing loop's appends. Once the loop has run, the inner `finally` has set the exit event, stopped and closed the microphone, closed the socket and called `set_active(False)` once. The exception leaving the body is `BodyEscape(env)` |
| Session.AttemptBody | src/voice_assistant/main.py:44-127 | The exception reaching the outer handlers is `Escaping(env)`. There is a fresh object for each stage reached, and a stage not reached leaves its name holding the previous pass's object. The socket is closed on leaving `async with`. No object that existed before is changed |
| Session.RunAttempt | src/voice_assistant/main.py:38-149 | The outcome is `AttemptOutcome`. There is a fresh microphone, socket and visualiser for each stage reached. An attempt that creates no microphone or socket keeps the stale one from the previous pass, as `"mic" in locals()` sees it. A stale object that a fresh one replaces is left unchanged. Every microphone is stopped and closed and every socket is closed. A retry waits before pygame quits |
| Session.RealtimeApi | src/voice_assistant/main.py:36-149 | The loop's result is `RealtimeRun` of the script. The host log is each attempt's optional wait followed by its pygame quit, in order |

## Left out

- The websocket connection, its URL and headers, and JSON serialisation are not modelled. Events are the `OutEvent` datatype, not JSON text.
- `process_ws_messages`, `run_visual_interface` and the scheduling of the tasks are not modelled. What they do to the session is input to the model: `Tick.receiving` for the inbound handler's `is_receiving`, and `AttemptEnv.tasks` for the exception awaiting them raises. Awaiting both tasks is one step.
- The internals of `AsyncMicrophone` are not modelled, including the capture callback and its thread, the lock and the audio device. `get_audio_data` is assumed to return the concatenation of the buffered chunks and to empty the buffer; an empty result stands for its `None`. Chunks captured before the first pacing check belong to the first tick.
- The pygame rendering and the `VisualInterface` energy computation are not modelled. The visualiser records the chunks it is shown and its `set_active` calls.
- `asyncio.sleep`: the 10 ms pacing interval and the 1 s reconnect wait are not timed. The wait is recorded as an event in the host log.
- Session.RealtimeRun: the one-second wait before a reconnect (main.py:136) is assumed not to raise. A cancellation or Ctrl+C during it would leave `realtime_api` after the outer `finally`; the model always records the retry and goes on to the next attempt.
- Logging is not modelled. `log_ws_event` is modelled as the line it would pass to `logging.info`, and `logger.info`, `logger.debug` and `logger.exception` calls have no effect in the model.
- Exceptions raised by `mic.get_audio_data`, the encoder, `process_audio_data`, the cleanup calls in either `finally`, or the creation of the `asyncio.Event` are not modelled. Only the sends and the final interrupt raise during the pacing loop.
- Session.RealtimeApi: `while True` is followed over a finite script of attempts, and a run whose every scripted attempt is retried ends as `OutOfScript`. The pacing loop likewise runs over finitely many scripted iterations and then meets its stop exception.
- The configuration values `SESSION_INSTRUCTIONS`, `SILENCE_THRESHOLD`, `PREFIX_PADDING_MS`, `SILENCE_DURATION_MS` and `TOOL_SCHEMAS` are parameters (`Settings`). Their modules are not part of this model.
- `log_runtime`, `structured_output_prompt` and `chat_prompt` in utils.py are left out. They write a file or call the OpenAI API.
- `src/voice_assistant/tools/GetCurrentTime.py` is left out. It reads the clock.
- For `SendMessageAsync`, `get_completion` and `asyncio.to_thread` are foreign code, so the model records the call. `get_completion` is assumed to return normally: if it raised, `send_message` would propagate the exception instead of returning the success text, and the model does not cover that path. `timeit_decorator` is assumed only to time and log the call; its module is not part of this model. The class docstring rewrite only formats documentation. The `AGENCIES` registry is a parameter. Agency and agent objects are truthy in Python, so `if agency:` is modelled as "the name is registered", and a registry entry holding `None` is not modelled. An agent object is modelled by its identity (`Agent.id`) and its name; its other attributes are not modelled.
- EventLog.DirectionOutIff: `str.lower()` is modelled on the ASCII letters A-Z only. No other Unicode character lowers to a single letter of "outgoing", so the comparison is unaffected. This is argued, not proved.
- EventLog.LogWsEvent: events are maps from strings to strings. A non-string "type" value, which Python would format with `str()`, is not modelled.
- EventLog.LogWsEvent: its contract is deliberately weak (a length bound). `LoggedType` states what the line says: it opens with `Emoji` of the type and `DirectionIcon` of the direction, ends with the type, and has nothing between the two. `EmojiLookup` and `DirectionOutIff` characterise those two helpers. That the table has 31 entries is not proved.
