/** The incremental event-stream parser of the gateway: bytes arrive in arbitrary chunks, lines
    make up frames, and the blank line that closes a frame dispatches it. A char is one byte. */
module SseParser {
  import opened Wrappers

  const MAX_SSE_EVENT_BYTES: nat := 0x100_0000
  const MAX_LOG_BODY_BYTES: nat := 0x1_0000
  const OVERSIZED_TAIL: nat := 64
  const NAME_LIMIT: nat := 128
  const COUNTED_NAMES: nat := 64

  const RESPONSES := "/v1/responses"
  const TOO_LARGE := "SSE event too large"

  /** The decoders whose results the parser only passes on. */
  datatype Decoder<!U, !V> = Decoder(
    trim: string -> string,
    lineHasText: string -> bool,
    eventHasText: (string, string) -> bool,
    isMetadata: string -> bool,
    usageOf: string -> U,
    mergeUsage: (U, U) -> U,
    types: string -> Option<(string, string)>,
    validate: (V, Option<string>, string, string) -> (V, Option<string>),
    summary: (string, string) -> string)

  datatype Stream<!U, !V> = Stream(decoder: Decoder<U, V>, strict: bool, path: string)

  /** The frame being collected. */
  datatype Frame = Frame(name: string, data: seq<string>, bytes: nat, oversized: bool)

  const NO_FRAME := Frame("", [], 0, false)

  /** What has been learnt from the frames dispatched so far. */
  datatype Seen<U, V> = Seen(
    terminal: bool, error: Option<string>, usage: U, validator: V, firstOutput: Option<string>, anyEvent: bool,
    compaction: bool, committable: bool, counts: map<string, nat>, lastTerminal: string, oversized: nat)

  datatype Parse<U, V> = Parse(frame: Frame, seen: Seen<U, V>)

  function Join(parts: seq<string>): string {
    if parts == [] then "" else if |parts| == 1 then parts[0] else parts[0] + "\n" + Join(parts[1..])
  }

  function Cut(s: string, n: nat): string { if |s| > n then s[..n] else s }

  predicate HasPrefix(s: string, prefix: string) { prefix <= s }

  function TrimPrefix(s: string, prefix: string): string { if prefix <= s then s[|prefix|..] else s }

  function TrimReturn(s: string): string { if |s| > 0 && s[|s| - 1] == '\r' then s[..|s| - 1] else s }

  predicate NamesTerminal(name: string) {
    name in ["response.completed", "response.failed", "response.incomplete", "error", "message_stop", "done"]
  }

  predicate NamesSuccess(name: string) { name in ["message_stop", "response.completed"] }

  predicate NamesFailure(name: string) { name in ["error", "response.failed", "response.incomplete"] }

  // ----------------------------------------------------------- dispatching a frame

  function CountedAs(counts: map<string, nat>, name: string): string {
    var short := if Cut(name, NAME_LIMIT) == "" then "data" else Cut(name, NAME_LIMIT);
    if short !in counts && |counts| >= COUNTED_NAMES then "other" else short
  }

  function Note<U, V>(e: Seen<U, V>, name: string): Seen<U, V> {
    var counted := CountedAs(e.counts, name);
    e.(counts := e.counts[counted := (if counted in e.counts then e.counts[counted] else 0) + 1],
       lastTerminal := if NamesTerminal(counted) then counted else e.lastTerminal)
  }

  function Validate<U, V>(s: Stream<U, V>, e: Seen<U, V>, name: string, data: string): Seen<U, V> {
    var (v, err) := s.decoder.validate(e.validator, e.error, name, data);
    e.(validator := v, error := err)
  }

  function AddUsage<U, V>(s: Stream<U, V>, e: Seen<U, V>, line: string): Seen<U, V> {
    e.(usage := s.decoder.mergeUsage(e.usage, s.decoder.usageOf(line)))
  }

  function FirstOutput<U, V>(e: Seen<U, V>, name: string): Seen<U, V> {
    if e.firstOutput.Some? then e else e.(firstOutput := Some(name))
  }

  predicate StartsCompaction<U, V>(s: Stream<U, V>, e: Seen<U, V>, name: string, types: Option<(string, string)>) {
    types.Some? && s.path == RESPONSES && e.firstOutput.None? && !e.compaction
    && (name == "response.compaction.compacting"
        || (name == "response.output_item.added" && types.value.1 == "compaction"))
  }

  /** The first text of the stream is remembered by its event. */
  function Speak<U, V>(s: Stream<U, V>, e: Seen<U, V>, name: string, data: string): Seen<U, V> {
    if s.decoder.eventHasText(name, data) then FirstOutput(e, if name == "" then "data" else name) else e
  }

  /** Some events end the stream, well or with an error. */
  function CloseBy<U, V>(s: Stream<U, V>, e: Seen<U, V>, name: string, data: string): Seen<U, V> {
    if NamesSuccess(name) then e.(terminal := true)
    else if NamesFailure(name) then e.(terminal := true, error := Some(s.decoder.summary(name, data)))
    else e
  }

  /** A lifecycle event of a strict stream allows an early commit. */
  function MayCommit<U, V>(s: Stream<U, V>, e: Seen<U, V>, name: string): Seen<U, V> {
    if s.strict && s.path == RESPONSES && e.error.None? && HasPrefix(name, "response.")
    then e.(committable := true) else e
  }

  /** What a frame's text and its closing event do, after the frame has been validated. */
  function Conclude<U, V>(s: Stream<U, V>, e: Seen<U, V>, name: string, data: string): Seen<U, V> {
    if s.path == RESPONSES && s.decoder.isMetadata(name) then e
    else MayCommit(s, CloseBy(s, Speak(s, e, name, data), name, data), name)
  }

  /** Dispatches a frame that has data. */
  function Dispatch<U, V>(s: Stream<U, V>, e: Seen<U, V>, name: string, data: string): Seen<U, V> {
    var types := s.decoder.types(data);
    var event := if types.Some? && types.value.0 != "" then types.value.0 else name;
    var checked := Validate(s, Note(AddUsage(s, e.(anyEvent := true), "data: " + data), event), event, data);
    if checked.error.Some? then checked.(terminal := true)
    else
      var marked := if StartsCompaction(s, checked, event, types) then checked.(compaction := true) else checked;
      Conclude(s, marked, event, data)
  }

  /** What closing a frame does. */
  function Finish<U, V>(s: Stream<U, V>, e: Seen<U, V>, f: Frame): Seen<U, V> {
    var data := Join(f.data);
    if f.oversized then e.(oversized := e.oversized + 1, terminal := true, error := Some(TOO_LARGE))
    else if s.decoder.trim(data) == "" then e
    else if s.decoder.trim(data) == "[DONE]"
    then Validate(s, Note(e, "done"), f.name, s.decoder.trim(data)).(terminal := true)
    else Dispatch(s, e, f.name, data)
  }

  // -------------------------------------------------------------------- whole lines

  function AddField<U, V>(s: Stream<U, V>, f: Frame, line: string): Frame {
    if HasPrefix(line, "event:") then f.(name := s.decoder.trim(TrimPrefix(line, "event:")))
    else if HasPrefix(line, "data:") then
      var bytes := f.bytes + |line|;
      if bytes > MAX_SSE_EVENT_BYTES || f.oversized
      then f.(bytes := bytes, oversized := true, data := if bytes > MAX_SSE_EVENT_BYTES then [] else f.data)
      else f.(bytes := bytes, data := f.data + [TrimPrefix(TrimPrefix(line, "data:"), " ")])
    else f
  }

  /** What any line but the one that ends the stream contributes besides its field. */
  function NoteLine<U, V>(s: Stream<U, V>, e: Seen<U, V>, line: string): Seen<U, V> {
    AddUsage(s, if !s.strict && s.decoder.lineHasText(line) then FirstOutput(e, "") else e, line)
  }

  function TakeLine<U, V>(s: Stream<U, V>, p: Parse<U, V>, line: string): Parse<U, V> {
    if line != "" then Parse(AddField(s, p.frame, line), NoteLine(s, p.seen, line))
    else
      var e := Finish(s, p.seen, p.frame);
      Parse(NO_FRAME, if e.terminal then e else NoteLine(s, e, line))
  }

  // ------------------------------------------------------------------ a byte buffer

  /** The first newline at or after `from`, or the end. */
  function Newline(b: string, from: nat): (i: nat)
    requires from <= |b|
    ensures from <= i <= |b| && '\n' !in b[from..i] && (i < |b| ==> b[i] == '\n')
    decreases |b| - from
  {
    if from == |b| || b[from] == '\n' then from else Newline(b, from + 1)
  }

  datatype Drained<U, V> = Drained(parse: Parse<U, V>, rest: string, stopped: bool)

  /** Takes the complete lines of a buffer, up to the end of a terminal event. */
  function Drain<U, V>(s: Stream<U, V>, p: Parse<U, V>, b: string): (r: Drained<U, V>)
    ensures |r.rest| <= |b| && r.rest == b[|b| - |r.rest|..]
    ensures !r.stopped ==> '\n' !in r.rest
    decreases |b|
  {
    var i := Newline(b, 0);
    if i == |b| then Drained(p, b, false)
    else
      var line, rest := TrimReturn(b[..i]), b[i + 1..];
      var q := TakeLine(s, p, line);
      if line == "" && q.seen.terminal then Drained(q, rest, true) else Drain(s, q, rest)
  }
}
