/** What one frame of an event stream tells the gateway, and that line ends do not matter. */
module SseLaws {
  import opened Wrappers
  import opened SseParser
  import opened SseChunks

  // ------------------------------------------------------------------ what a frame shows

  /** The frame carries a business event: it fits, and its data is neither blank nor the end mark. */
  predicate CarriesEvent<U, V>(s: Stream<U, V>, f: Frame) {
    var text := s.decoder.trim(Join(f.data));
    !f.oversized && text != "" && text != "[DONE]"
  }

  /** An event that passes the validator and is no metadata. */
  predicate Counts<U, V>(s: Stream<U, V>, e: Seen<U, V>, f: Frame) {
    CarriesEvent(s, f) && Complaint(s, e, f).None? && !Ignored(s, EventName(s, f))
  }

  /** Exactly which frames are output, allow the response to be committed, begin a compaction, and
      count as an event, and what they add to the usage. */
  lemma WhatAFrameShows<U, V>(s: Stream<U, V>, e: Seen<U, V>, f: Frame)
    requires !e.terminal && e.error.None?
    ensures var r, name, data := Finish(s, e, f), EventName(s, f), Join(f.data);
            && r.firstOutput == (if e.firstOutput.None? && Counts(s, e, f) && s.decoder.eventHasText(name, data)
                                 then Some(if name == "" then "data" else name) else e.firstOutput)
            && (r.committable <==>
                  || e.committable
                  || (Counts(s, e, f) && s.strict && s.path == "/v1/responses" && "response." <= name
                      && name != "response.failed" && name != "response.incomplete"))
            && (r.compaction <==>
                  || e.compaction
                  || (CarriesEvent(s, f) && Complaint(s, e, f).None? && s.path == "/v1/responses"
                      && e.firstOutput.None? && Compacts(name, s.decoder.types(data))))
            && (r.anyEvent <==> e.anyEvent || CarriesEvent(s, f))
            && r.usage == (if CarriesEvent(s, f)
                           then s.decoder.mergeUsage(e.usage, s.decoder.usageOf("data: " + data)) else e.usage)
            && r.oversized == e.oversized + if f.oversized then 1 else 0
  {
    NoteKeeps(e, "done");
    if CarriesEvent(s, f) {
      DispatchShows(s, e, f);
    }
    hide Note, Join, Dispatch, EventName, Complaint;
  }

  predicate Compacts(name: string, types: Option<(string, string)>) {
    types.Some? && (name == "response.compaction.compacting"
                    || (name == "response.output_item.added" && types.value.1 == "compaction"))
  }

  lemma DispatchShows<U, V>(s: Stream<U, V>, e: Seen<U, V>, f: Frame)
    requires !e.terminal && e.error.None? && CarriesEvent(s, f)
    ensures var r, name, data := Dispatch(s, e, f.name, Join(f.data)), EventName(s, f), Join(f.data);
            && r.firstOutput == (if e.firstOutput.None? && Counts(s, e, f) && s.decoder.eventHasText(name, data)
                                 then Some(if name == "" then "data" else name) else e.firstOutput)
            && (r.committable <==>
                  || e.committable
                  || (Counts(s, e, f) && s.strict && s.path == "/v1/responses" && "response." <= name
                      && name != "response.failed" && name != "response.incomplete"))
            && (r.compaction <==>
                  || e.compaction
                  || (Complaint(s, e, f).None? && s.path == "/v1/responses"
                      && e.firstOutput.None? && Compacts(name, s.decoder.types(data))))
            && r.anyEvent && r.usage == s.decoder.mergeUsage(e.usage, s.decoder.usageOf("data: " + data))
            && r.oversized == e.oversized
  {
    hide Note, Join, Conclude, NamesFailure, NamesSuccess, Ignored;
    var data, name := Join(f.data), EventName(s, f);
    var used := AddUsage(s, e.(anyEvent := true), "data: " + data);
    NoteKeeps(used, name);
    var checked := Validate(s, Note(used, name), name, data);
    if checked.error.None? {
      ConcludeShows(s, checked, name, data);
      ConcludeShows(s, checked.(compaction := true), name, data);
    }
  }

  lemma ConcludeShows<U, V>(s: Stream<U, V>, e: Seen<U, V>, name: string, data: string)
    requires !e.terminal && e.error.None?
    ensures var r := Conclude(s, e, name, data);
            && r.firstOutput == (if e.firstOutput.None? && !Ignored(s, name) && s.decoder.eventHasText(name, data)
                                 then Some(if name == "" then "data" else name) else e.firstOutput)
            && (r.committable <==>
                  || e.committable
                  || (!Ignored(s, name) && s.strict && s.path == "/v1/responses" && "response." <= name
                      && name != "response.failed" && name != "response.incomplete"))
            && r.compaction == e.compaction && r.anyEvent == e.anyEvent && r.usage == e.usage
            && r.oversized == e.oversized
  {
    NotAResponse(name);
    var spoken := Speak(s, e, name, data);
    assert spoken.(firstOutput := e.firstOutput) == e;
    CloseShows(s, spoken, name, data);
    hide CloseBy;
  }

  lemma CloseShows<U, V>(s: Stream<U, V>, e: Seen<U, V>, name: string, data: string)
    requires e.error.None?
    ensures CloseBy(s, e, name, data).(terminal := e.terminal, error := e.error) == e
    ensures CloseBy(s, e, name, data).error.None?
            <==> name != "error" && name != "response.failed" && name != "response.incomplete"
  {
    SuccessIsNoFailure(name);
    hide NamesSuccess;
  }

  lemma NotAResponse(name: string)
    ensures "response." <= name ==> name != "error"
  {
    assert |"error"| == 5 && |"response."| == 9;
  }

  lemma SuccessIsNoFailure(name: string)
    ensures NamesSuccess(name) ==> !NamesFailure(name)
  {
    assert |"error"| == 5 && |"message_stop"| == 12
           && |"response.failed"| == 15 && |"response.completed"| == 18 && |"response.incomplete"| == 19;
  }

  /** The name under which a frame with data is noted, validated and counted. */
  function NotedAs<U, V>(s: Stream<U, V>, f: Frame): string {
    if s.decoder.trim(Join(f.data)) == "[DONE]" then "done" else EventName(s, f)
  }

  /** Frames that are not blank and not oversized are counted once and shown to the validator; the error of
      a frame is its size, the validator's complaint, or else the failure that the event reports. */
  lemma WhatAFrameLeaves<U, V>(s: Stream<U, V>, e: Seen<U, V>, f: Frame)
    requires !e.terminal && e.error.None?
    ensures var r, data := Finish(s, e, f), Join(f.data);
            var text, name := s.decoder.trim(data), EventName(s, f);
            var heard := !f.oversized && text != "";
            && (heard ==> r.counts == Note(e, NotedAs(s, f)).counts
                          && r.lastTerminal == Note(e, NotedAs(s, f)).lastTerminal
                          && r.validator == (if text == "[DONE]"
                                             then s.decoder.validate(e.validator, None, f.name, text).0
                                             else s.decoder.validate(e.validator, None, name, data).0))
            && (!heard ==> r.counts == e.counts && r.lastTerminal == e.lastTerminal && r.validator == e.validator)
            && r.error == (if f.oversized then Some("SSE event too large")
                           else if !heard then None
                           else if Complaint(s, e, f).Some? || text == "[DONE]" then Complaint(s, e, f)
                           else if !Ignored(s, name) && NamesFailure(name) then Some(s.decoder.summary(name, data))
                           else None)
  {
    NoteKeeps(e, "done");
    if CarriesEvent(s, f) {
      DispatchLeaves(s, e, f);
    }
    hide Note, Join, Dispatch, EventName, NamesFailure;
  }

  lemma DispatchLeaves<U, V>(s: Stream<U, V>, e: Seen<U, V>, f: Frame)
    requires !e.terminal && e.error.None? && CarriesEvent(s, f)
    ensures var r, name, data := Dispatch(s, e, f.name, Join(f.data)), EventName(s, f), Join(f.data);
            && r.counts == Note(e, name).counts && r.lastTerminal == Note(e, name).lastTerminal
            && r.validator == s.decoder.validate(e.validator, None, name, data).0
            && r.error == (if Complaint(s, e, f).Some? then Complaint(s, e, f)
                           else if !Ignored(s, name) && NamesFailure(name) then Some(s.decoder.summary(name, data))
                           else None)
  {
    hide Join, Conclude, NamesFailure, NamesSuccess, Ignored, CountedAs, NamesTerminal;
    var data, name := Join(f.data), EventName(s, f);
    var used := AddUsage(s, e.(anyEvent := true), "data: " + data);
    NoteKeeps(used, name);
    NoteSame(e, used, name);
    hide Note;
    var checked := Validate(s, Note(used, name), name, data);
    if checked.error.None? {
      ConcludeLeaves(s, checked, name, data);
      ConcludeLeaves(s, checked.(compaction := true), name, data);
    }
  }

  lemma NoteSame<U, V>(e: Seen<U, V>, used: Seen<U, V>, name: string)
    requires used.counts == e.counts && used.lastTerminal == e.lastTerminal
    ensures Note(used, name).counts == Note(e, name).counts
    ensures Note(used, name).lastTerminal == Note(e, name).lastTerminal
  {
  }

  lemma ConcludeLeaves<U, V>(s: Stream<U, V>, e: Seen<U, V>, name: string, data: string)
    requires e.error.None?
    ensures var r := Conclude(s, e, name, data);
            && r.counts == e.counts && r.lastTerminal == e.lastTerminal && r.validator == e.validator
            && r.error == if !Ignored(s, name) && NamesFailure(name) then Some(s.decoder.summary(name, data)) else None
  {
    var spoken := Speak(s, e, name, data);
    assert spoken.(firstOutput := e.firstOutput) == e;
    CloseLeaves(s, spoken, name, data);
    hide CloseBy, Speak, NamesFailure, HasPrefix;
    var closed := CloseBy(s, spoken, name, data);
    assert MayCommit(s, closed, name).(committable := closed.committable) == closed;
  }

  lemma CloseLeaves<U, V>(s: Stream<U, V>, e: Seen<U, V>, name: string, data: string)
    requires e.error.None?
    ensures CloseBy(s, e, name, data).(terminal := e.terminal, error := e.error) == e
    ensures CloseBy(s, e, name, data).error
            == if NamesFailure(name) then Some(s.decoder.summary(name, data)) else None
  {
    SuccessIsNoFailure(name);
    hide NamesFailure, NamesSuccess;
  }

  /** What a line shows by itself: it may carry usage, and in a stream that is not validated its text
      is output. Only the blank line that closes a terminal frame is not looked at. */
  lemma WhatALineShows<U, V>(s: Stream<U, V>, p: Parse<U, V>, line: string)
    requires line != ""
    ensures var r := TakeLine(s, p, line).seen;
            && (r.firstOutput.Some? <==> p.seen.firstOutput.Some? || (!s.strict && s.decoder.lineHasText(line)))
            && r.usage == s.decoder.mergeUsage(p.seen.usage, s.decoder.usageOf(line))
            && r.terminal == p.seen.terminal && r.error == p.seen.error && r.committable == p.seen.committable
            && r.compaction == p.seen.compaction && r.validator == p.seen.validator && r.counts == p.seen.counts
  {
    hide AddField;
  }

  // ------------------------------------------------------------------- counting by name

  function CountOf(counts: map<string, nat>, name: string): nat { if name in counts then counts[name] else 0 }

  /** An event is counted under the first 128 bytes of its name, or as "data" without one; once 64
      names are in use, new names are counted together. No other counter moves, and the last
      terminal name is remembered. */
  lemma CountsByName<U, V>(e: Seen<U, V>, name: string, other: string)
    requires 0 < |name| <= 128
    ensures var r, own := Note(e, name), name in e.counts || |e.counts| < 64;
            && (own ==> CountOf(r.counts, name) == CountOf(e.counts, name) + 1)
            && (!own ==> CountOf(r.counts, "other") == CountOf(e.counts, "other") + 1)
            && (other != (if own then name else "other") ==> CountOf(r.counts, other) == CountOf(e.counts, other))
            && r.lastTerminal == (if own && EndsByName(name) then name else e.lastTerminal)
  {
  }

  predicate EndsByName(name: string) {
    || name == "response.completed" || name == "response.failed" || name == "response.incomplete"
    || name == "error" || name == "message_stop" || name == "done"
  }

  lemma CountsLongNames<U, V>(e: Seen<U, V>, name: string)
    ensures |name| > 128 ==> Note(e, name) == Note(e, name[..128])
    ensures name == "" ==> Note(e, name) == Note(e, "data")
  {
  }

  // --------------------------------------------------------------------------- line ends

  /** The same lines with a carriage return before every newline. */
  function Returned(b: string): string {
    if b == "" then "" else (if b[0] == '\n' then "\r\n" else [b[0]]) + Returned(b[1..])
  }

  /** No line ends with a carriage return. */
  ghost predicate PlainLines(b: string) { forall i :: 0 < i < |b| && b[i] == '\n' ==> b[i - 1] != '\r' }

  lemma {:induction false} ReturnedConcat(a: string, b: string)
    ensures Returned(a + b) == Returned(a) + Returned(b)
  {
    if a == "" {
      assert a + b == b;
    } else {
      assert (a + b)[1..] == a[1..] + b;
      ReturnedConcat(a[1..], b);
    }
  }

  lemma {:induction false} ReturnedLine(raw: string)
    requires '\n' !in raw
    ensures Returned(raw) == raw
  {
    if raw != "" {
      ReturnedLine(raw[1..]);
    }
  }

  lemma ReturnedSplit(raw: string, rest: string)
    requires '\n' !in raw
    ensures Returned(raw + "\n" + rest) == raw + "\r" + "\n" + Returned(rest)
  {
    ReturnedConcat(raw + "\n", rest);
    ReturnedConcat(raw, "\n");
    ReturnedLine(raw);
    assert Returned("\n") == "\r\n";
    hide Returned;
    assert raw + "\r\n" == raw + "\r" + "\n";
  }

  /** A stream with network line ends is parsed like the one with plain newlines: the same state,
      the same end, and the same rest. */
  lemma {:induction false} LineEndsDoNotMatter<U, V>(s: Stream<U, V>, p: Parse<U, V>, b: string)
    requires PlainLines(b)
    ensures var r := Drain(s, p, b);
            Drain(s, p, Returned(b)) == r.(rest := Returned(r.rest))
    decreases |b|
  {
    hide TakeLine, Newline;
    var i := Newline(b, 0);
    if i == |b| {
      DrainHead(s, p, b);
      hide Drain;
      assert b[0..i] == b;
      ReturnedLine(b);
    } else {
      var raw, rest := b[..i], b[i + 1..];
      hide Drain;
      assert b == raw + "\n" + rest;
      assert b[0..i] == raw;
      assert TrimReturn(raw) == raw;
      assert TrimReturn(raw + "\r") == raw;
      hide TrimReturn;
      ReturnedSplit(raw, rest);
      hide Returned;
      DrainLine(s, p, raw, rest);
      DrainLine(s, p, raw + "\r", Returned(rest));
      PlainRest(b, i);
      LineEndsDoNotMatter(s, TakeLine(s, p, raw), rest);
    }
  }

  lemma PlainRest(b: string, i: nat)
    requires PlainLines(b) && i < |b|
    ensures PlainLines(b[i + 1..])
  {
    var rest := b[i + 1..];
    forall k | 0 < k < |rest| && rest[k] == '\n' ensures rest[k - 1] != '\r' {
      assert rest[k] == b[i + 1 + k] && rest[k - 1] == b[i + k];
    }
  }

  /** So do the reads of two streams that differ in their line ends only, however each is cut. */
  lemma ReadsWithReturnsAgree<U, V>(s: Stream<U, V>, p: Parse<U, V>, plain: seq<string>, returned: seq<string>)
    requires !p.seen.terminal && PlainLines(Concat(plain)) && Concat(returned) == Returned(Concat(plain))
    requires LinesFit(Concat(plain)) && LinesFit(Concat(returned))
    ensures FeedAll(s, p, plain).parse == FeedAll(s, p, returned).parse
  {
    hide FeedAll, Concat, LinesFit, Drain, PlainLines;
    ChunkIndependent(s, p, plain);
    ChunkIndependent(s, p, returned);
    LineEndsDoNotMatter(s, p, Concat(plain));
  }
}
