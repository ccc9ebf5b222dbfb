/** The stream collector as the gateway runs it: fields updated frame by frame, and a newline
    search that resumes where the previous read left off. */
module StreamCollector {
  import opened Wrappers
  import opened SseParser
  import opened SseChunks

  /** Resuming the search behind bytes known to hold no newline finds what a search from the
      start finds. */
  lemma {:induction false} ResumedSearchAgrees(b: string, from: nat, scan: nat)
    requires from <= scan <= |b| && '\n' !in b[from..scan]
    ensures Newline(b, scan) == Newline(b, from)
    decreases scan - from
  {
    if from < scan {
      assert b[from] == b[from..scan][0];
      assert b[from + 1..scan] == b[from..scan][1..];
      ResumedSearchAgrees(b, from + 1, scan);
    }
  }

  class StreamCollector<U, V> {
    const stream: Stream<U, V>
    var eventName: string
    var eventData: seq<string>
    var eventBytes: nat
    var eventOversized: bool
    var seen: Seen<U, V>
    var buf: string
    var lineScanOffset: nat
    var prefix: string
    var total: nat

    ghost predicate Valid()
      reads this
    {
      lineScanOffset == |buf| && '\n' !in buf
    }

    function Current(): Frame
      reads this`eventName, this`eventData, this`eventBytes, this`eventOversized
    {
      Frame(eventName, eventData, eventBytes, eventOversized)
    }

    function State(): Collector<U, V>
      reads this
    {
      Collector(Parse(Current(), seen), buf, prefix, total)
    }

    constructor (stream: Stream<U, V>, usage: U, validator: V)
      ensures Valid() && this.stream == stream
      ensures State() == Collector(Parse(NO_FRAME, seen), "", "", 0)
      ensures seen == Seen(false, None, usage, validator, None, false, false, false, map[], "", 0)
    {
      this.stream := stream;
      eventName, eventData, eventBytes, eventOversized := "", [], 0, false;
      seen := Seen(false, None, usage, validator, None, false, false, false, map[], "", 0);
      buf, lineScanOffset, prefix, total := "", 0, "", 0;
    }

    /** Counts an event under its name: the total goes up by one, and there are never more than
        65 counters. */
    method NoteEvent(event: string)
      modifies this`seen
      ensures seen == Note(old(seen), event)
      ensures Total(seen.counts) == Total(old(seen).counts) + 1
      ensures BoundedNames(old(seen).counts) ==> BoundedNames(seen.counts)
    {
      hide NamesTerminal, CountedAs, Total, BoundedNames;
      NoteCountsOnce(seen, event);
      var name := CounterName(event, seen.counts);
      var before := if name in seen.counts then seen.counts[name] else 0;
      seen := seen.(counts := seen.counts[name := before + 1]);
      if NamesTerminal(name) {
        seen := seen.(lastTerminal := name);
      }
    }

    static method CounterName(event: string, counts: map<string, nat>) returns (name: string)
      ensures name == CountedAs(counts, event)
    {
      name := event;
      if |name| > NAME_LIMIT {
        name := name[..NAME_LIMIT];
      }
      if name == "" {
        name := "data";
      }
      if name !in counts && |counts| >= COUNTED_NAMES {
        name := "other";
      }
    }

    method ValidateEvent(name: string, data: string)
      modifies this`seen
      ensures seen == Validate(stream, old(seen), name, data)
    {
      var (validator, error) := stream.decoder.validate(seen.validator, seen.error, name, data);
      seen := seen.(validator := validator, error := error);
    }

    method MarkFirstOutput(name: string)
      modifies this`seen
      ensures seen == FirstOutput(old(seen), name)
    {
      if seen.firstOutput.Some? {
        return;
      }
      seen := seen.(firstOutput := Some(name));
    }

    /** Closes the frame at a blank line: it is dropped, refused or dispatched. */
    method FinishEvent()
      modifies this`seen, this`eventName, this`eventData, this`eventBytes, this`eventOversized
      ensures Current() == NO_FRAME && seen == Finish(stream, old(seen), old(Current()))
    {
      var frame := Current();
      eventName, eventData, eventBytes, eventOversized := "", [], 0, false;
      if frame.oversized {
        seen := seen.(oversized := seen.oversized + 1, terminal := true, error := Some(TOO_LARGE));
        return;
      }
      var data := Join(frame.data);
      if stream.decoder.trim(data) == "" {
        return;
      }
      if stream.decoder.trim(data) == "[DONE]" {
        NoteEvent("done");
        ValidateEvent(frame.name, stream.decoder.trim(data));
        seen := seen.(terminal := true);
        return;
      }
      DispatchEvent(frame.name, data);
    }

    method DispatchEvent(frameName: string, data: string)
      modifies this`seen
      ensures seen == Dispatch(stream, old(seen), frameName, data)
    {
      hide Note, Validate, AddUsage, Conclude;
      var name := frameName;
      seen := AddUsage(stream, seen.(anyEvent := true), "data: " + data);
      var types := stream.decoder.types(data);
      if types.Some? && types.value.0 != "" {
        name := types.value.0;
      }
      NoteEvent(name);
      ValidateEvent(name, data);
      if seen.error.Some? {
        seen := seen.(terminal := true);
        return;
      }
      if StartsCompaction(stream, seen, name, types) {
        seen := seen.(compaction := true);
      }
      ConcludeEvent(name, data);
    }

    method ConcludeEvent(name: string, data: string)
      modifies this`seen
      ensures seen == Conclude(stream, old(seen), name, data)
    {
      hide CloseBy;
      if stream.path == RESPONSES && stream.decoder.isMetadata(name) {
        return;
      }
      if stream.decoder.eventHasText(name, data) && seen.firstOutput.None? {
        MarkFirstOutput(if name == "" then "data" else name);
      }
      CloseStream(name, data);
      if stream.strict && stream.path == RESPONSES && seen.error.None? && HasPrefix(name, "response.") {
        seen := seen.(committable := true);
      }
    }

    method CloseStream(name: string, data: string)
      modifies this`seen
      ensures seen == CloseBy(stream, old(seen), name, data)
    {
      if name == "message_stop" || name == "response.completed" {
        seen := seen.(terminal := true);
      } else if name == "error" || name == "response.failed" || name == "response.incomplete" {
        seen := seen.(terminal := true, error := Some(stream.decoder.summary(name, data)));
      }
    }

    /** Takes one line; says whether it closed a terminal event. */
    method TakeOne(line: string) returns (ended: bool)
      modifies this`seen, this`eventName, this`eventData, this`eventBytes, this`eventOversized
      ensures Parse(Current(), seen) == TakeLine(stream, old(Parse(Current(), seen)), line)
      ensures ended == (line == "" && seen.terminal)
    {
      hide Finish, NoteLine, AddField;
      ended := false;
      if line == "" {
        FinishEvent();
        if seen.terminal {
          return true;
        }
      } else {
        AddLineField(line);
      }
      CountLine(line);
    }

    method AddLineField(line: string)
      modifies this`eventName, this`eventData, this`eventBytes, this`eventOversized
      ensures Current() == AddField(stream, old(Current()), line)
    {
      if HasPrefix(line, "event:") {
        eventName := stream.decoder.trim(TrimPrefix(line, "event:"));
      } else if HasPrefix(line, "data:") {
        eventBytes := eventBytes + |line|;
        if eventBytes > MAX_SSE_EVENT_BYTES {
          eventOversized := true;
          eventData := [];
        }
        if !eventOversized {
          eventData := eventData + [TrimPrefix(TrimPrefix(line, "data:"), " ")];
        }
      }
    }

    method CountLine(line: string)
      modifies this`seen
      ensures seen == NoteLine(stream, old(seen), line) && seen.terminal == old(seen.terminal)
    {
      if !stream.strict && seen.firstOutput.None? && stream.decoder.lineHasText(line) {
        MarkFirstOutput("");
      }
      seen := AddUsage(stream, seen, line);
    }

    /** Takes the complete lines of the buffer, up to the end of a terminal event; says how many
        bytes behind that end were dropped. */
    method TakeLines() returns (dropped: nat)
      requires lineScanOffset <= |buf| && '\n' !in buf[..lineScanOffset]
      modifies this`seen, this`eventName, this`eventData, this`eventBytes, this`eventOversized
      modifies this`buf, this`lineScanOffset
      ensures var r := old(Drain(stream, Parse(Current(), seen), buf));
              Kept(r) && dropped == if r.stopped then |r.rest| else 0
    {
      hide Drain, Newline, TakeLine, TrimReturn;
      ghost var all := Drain(stream, Parse(Current(), seen), buf);
      while true
        invariant lineScanOffset <= |buf| && '\n' !in buf[..lineScanOffset]
        invariant Drain(stream, Parse(Current(), seen), buf) == all
        decreases |buf|
      {
        assert buf[0..lineScanOffset] == buf[..lineScanOffset];
        ResumedSearchAgrees(buf, 0, lineScanOffset);
        var i := Newline(buf, lineScanOffset);
        FirstLine(stream, Parse(Current(), seen), buf, i);
        if i == |buf| {
          KeepRest();
          return 0;
        }
        lineScanOffset := 0;
        var line := TrimReturn(buf[..i]);
        buf := buf[i + 1..];
        var ended := TakeOne(line);
        if ended {
          dropped := |buf|;
          buf := "";
          return;
        }
      }
    }

    /** Keeps the unfinished line, or only the end of it when it is over the limit. */
    method KeepRest()
      requires '\n' !in buf
      modifies this`eventData, this`eventOversized, this`buf, this`lineScanOffset
      ensures Kept(Drained(old(Parse(Current(), seen)), old(buf), false))
    {
      if |buf| > MAX_SSE_EVENT_BYTES {
        buf := buf[|buf| - OVERSIZED_TAIL..];
        eventOversized, eventData := true, [];
      }
      lineScanOffset := |buf|;
    }

    /** Takes a chunk and says how much of it belongs to the stream: all of it, or the part
        through the terminal event. */
    method FeedChunk(p: string) returns (consumed: nat)
      requires Valid()
      modifies this
      ensures Valid() && consumed <= |p|
      ensures State() == Feed(stream, old(State()), p) && consumed == total - old(total)
    {
      hide Drain, Keep, Stored;
      DrainEatsBuffer(stream, Parse(Current(), seen), buf, p);
      buf := buf + p;
      var dropped := TakeLines();
      consumed := |p| - dropped;
      Store(p, consumed);
    }

    /** Counts what was consumed, and keeps the beginning of the stream. */
    method Store(p: string, consumed: nat)
      requires consumed <= |p|
      modifies this`total, this`prefix
      ensures total == old(total) + consumed && prefix == Stored(old(prefix), p[..consumed])
    {
      total := total + consumed;
      var room := MAX_LOG_BODY_BYTES - |prefix|;
      if room > 0 {
        prefix := prefix + p[..if room < consumed then room else consumed];
      }
    }

    ghost predicate Kept(r: Drained<U, V>)
      reads this
    {
      Valid() && (Parse(Current(), seen), buf) == Keep(r)
    }

    static lemma FirstLine(s: Stream<U, V>, p: Parse<U, V>, b: string, i: nat)
      requires i == Newline(b, 0)
      ensures i == |b| ==> '\n' !in b && Drain(s, p, b) == Drained(p, b, false)
      ensures i < |b| ==>
                var line, rest := TrimReturn(b[..i]), b[i + 1..];
                var q := TakeLine(s, p, line);
                Drain(s, p, b) == if line == "" && q.seen.terminal then Drained(q, rest, true) else Drain(s, q, rest)
    {
      hide TakeLine;
      assert b[0..|b|] == b;
    }
  }
}
