/**
 * `log_ws_event` (src/realtime_api_async_python/utils.py): the line logged
 * for one websocket event. The event dictionary is abstracted to its
 * string-valued fields; only its "type" field is read.
 */
module EventLog {

  type Event = map<string, string>

  /** The event types the logger knows, each with its emoji (31 entries). */
  const EventEmojis: map<string, string> := map[
    "session.update" := "🛠️",
    "session.created" := "🔌",
    "session.updated" := "🔄",
    "input_audio_buffer.append" := "🎤",
    "input_audio_buffer.commit" := "✅",
    "input_audio_buffer.speech_started" := "🗣️",
    "input_audio_buffer.speech_stopped" := "🤫",
    "input_audio_buffer.cleared" := "🧹",
    "input_audio_buffer.committed" := "📨",
    "conversation.item.create" := "📥",
    "conversation.item.delete" := "🗑️",
    "conversation.item.truncate" := "✂️",
    "conversation.item.created" := "📤",
    "conversation.item.deleted" := "🗑️",
    "conversation.item.truncated" := "✂️",
    "response.create" := "➡️",
    "response.created" := "📝",
    "response.output_item.added" := "➕",
    "response.output_item.done" := "✅",
    "response.text.delta" := "✍️",
    "response.text.done" := "📝",
    "response.audio.delta" := "🔊",
    "response.audio.done" := "🔇",
    "response.done" := "✔️",
    "response.cancel" := "⛔",
    "response.function_call_arguments.delta" := "📥",
    "response.function_call_arguments.done" := "📥",
    "rate_limits.updated" := "⏳",
    "error" := "❌",
    "conversation.item.input_audio_transcription.completed" := "📝",
    "conversation.item.input_audio_transcription.failed" := "⚠️"
  ]

  const UnknownType: string := "Unknown"
  const UnknownEmoji: string := "❓"
  const OutIcon: string := "⬆️ - Out"
  const InIcon: string := "⬇️ - In"

  /** `event.get("type", "Unknown")` */
  function EventType(event: Event): string {
    if "type" in event then event["type"] else UnknownType
  }

  /** `event_emojis.get(event_type, "❓")` */
  function Emoji(eventType: string): string {
    if eventType in EventEmojis then EventEmojis[eventType] else UnknownEmoji
  }

  /** Lower-casing of one character; only A-Z are folded. */
  function LowerChar(c: char): char {
    if 'A' <= c <= 'Z' then (c as int - 'A' as int + 'a' as int) as char else c
  }

  /** `s.lower()` on ASCII letters. */
  function Lower(s: string): string {
    seq(|s|, i requires 0 <= i < |s| => LowerChar(s[i]))
  }

  /** `"⬆️ - Out" if direction.lower() == "outgoing" else "⬇️ - In"` */
  function DirectionIcon(direction: string): string {
    if Lower(direction) == "outgoing" then OutIcon else InIcon
  }

  /** The message `log_ws_event(direction, event)` passes to `logging.info`. */
  function LogWsEvent(direction: string, event: Event): (line: string)
    ensures |line| > |EventType(event)|
  {
    var eventType := EventType(event);
    Emoji(eventType) + " " + DirectionIcon(direction) + " " + eventType
  }

  /** The line opens with the emoji of the event's type and the direction
      icon, and ends with the event's own type when it has one; an event
      without a type is logged as "Unknown" with the fallback emoji. */
  lemma LoggedType(direction: string, event: Event)
    ensures StartsWith(LogWsEvent(direction, event), Emoji(EventType(event)) + " " + DirectionIcon(direction) + " ")
    ensures |LogWsEvent(direction, event)| == |Emoji(EventType(event)) + " " + DirectionIcon(direction) + " "| + |EventType(event)|
    ensures "type" in event ==> EndsWith(LogWsEvent(direction, event), " " + event["type"])
    ensures "type" !in event ==> LogWsEvent(direction, event) == "❓ " + DirectionIcon(direction) + " Unknown"
  {
    var line := LogWsEvent(direction, event);
    var opening := Emoji(EventType(event)) + " " + DirectionIcon(direction) + " ";
    assert line == opening + EventType(event);
    ConcatStartsWith(opening, EventType(event));
    if "type" in event {
      var t := event["type"];
      var head := Emoji(t) + " " + DirectionIcon(direction);
      assert line == head + (" " + t);
    } else {
      EmojiLookup(UnknownType);
    }
  }

  predicate StartsWith(s: string, prefix: string) {
    |prefix| <= |s| && s[..|prefix|] == prefix
  }

  predicate EndsWith(s: string, suffix: string) {
    |suffix| <= |s| && s[|s| - |suffix|..] == suffix
  }

  lemma ConcatStartsWith(prefix: string, rest: string)
    ensures StartsWith(prefix + rest, prefix)
  {
    assert (prefix + rest)[..|prefix|] == prefix;
  }

  /** A type in the table gets its own emoji, never the fallback; every
      other type, "Unknown" among them, gets the fallback. */
  lemma EmojiLookup(eventType: string)
    ensures eventType in EventEmojis ==> Emoji(eventType) == EventEmojis[eventType] != UnknownEmoji
    ensures eventType !in EventEmojis ==> Emoji(eventType) == UnknownEmoji
    ensures UnknownType !in EventEmojis
  {
  }

  /** The direction is "Out" exactly for the eight letters of "outgoing" in
      any mix of cases: "OUTGOING" and "Outgoing" count, " outgoing" does not. */
  lemma {:induction false} DirectionOutIff(direction: string)
    ensures DirectionIcon(direction) == OutIcon <==>
      |direction| == 8 && forall i | 0 <= i < 8 :: direction[i] == "outgoing"[i] || direction[i] == "OUTGOING"[i]
  {
    var lower := Lower(direction);
    if lower == "outgoing" {
      forall i | 0 <= i < 8
        ensures direction[i] == "outgoing"[i] || direction[i] == "OUTGOING"[i]
      {
        assert LowerChar(direction[i]) == "outgoing"[i];
      }
    }
    if |direction| == 8 && forall i | 0 <= i < 8 :: direction[i] == "outgoing"[i] || direction[i] == "OUTGOING"[i] {
      forall i | 0 <= i < 8
        ensures lower[i] == "outgoing"[i]
      {
        assert direction[i] == "outgoing"[i] || direction[i] == "OUTGOING"[i];
      }
    }
  }

  lemma OutgoingIsOut()
    ensures DirectionIcon("outgoing") == OutIcon
  {
    assert Lower("outgoing") == "outgoing";
  }

  lemma SessionUpdateEmoji()
    ensures Emoji("session.update") == "🛠️"
  {
  }

  lemma AudioAppendEmoji()
    ensures Emoji("input_audio_buffer.append") == "🎤"
  {
  }

  /** The line main.py logs for its session.update event. */
  lemma SessionUpdateLine(event: Event)
    requires "type" in event && event["type"] == "session.update"
    ensures LogWsEvent("outgoing", event) == "🛠️ ⬆️ - Out session.update"
  {
    OutgoingIsOut();
    SessionUpdateEmoji();
  }

  /** The line main.py logs for each audio append event, whatever audio it carries. */
  lemma AudioAppendLine(event: Event)
    requires "type" in event && event["type"] == "input_audio_buffer.append"
    ensures LogWsEvent("outgoing", event) == "🎤 ⬆️ - Out input_audio_buffer.append"
  {
    OutgoingIsOut();
    AudioAppendEmoji();
  }
}
