/** Chunk independence of the incremental parser, and what a frame means. */
module SseChunks {
  import opened Wrappers
  import opened SseParser

  // ----------------------------------------------------------- one feed of a chunk

  /** The collector between two reads. */
  datatype Collector<U, V> = Collector(parse: Parse<U, V>, buf: string, prefix: string, total: nat)

  function Stored(prefix: string, p: string): string {
    var room := MAX_LOG_BODY_BYTES - |prefix|;
    if room <= 0 then prefix else prefix + p[..if room < |p| then room else |p|]
  }

  /** How much of a chunk a feed consumes, given what stays in the buffer after a terminal event. */
  function Consumed<U, V>(r: Drained<U, V>, p: string): int { if r.stopped then |p| - |r.rest| else |p| }

  function Keep<U, V>(r: Drained<U, V>): (Parse<U, V>, string) {
    if r.stopped then (r.parse, "")
    else if |r.rest| > MAX_SSE_EVENT_BYTES
    then (r.parse.(frame := r.parse.frame.(oversized := true, data := [])), r.rest[|r.rest| - OVERSIZED_TAIL..])
    else (r.parse, r.rest)
  }

  function Feed<U, V>(s: Stream<U, V>, c: Collector<U, V>, p: string): Collector<U, V>
    requires '\n' !in c.buf
  {
    var r := Drain(s, c.parse, c.buf + p);
    DrainEatsBuffer(s, c.parse, c.buf, p);
    var n := Consumed(r, p);
    var (parse, buf) := Keep(r);
    Collector(parse, buf, Stored(c.prefix, p[..n]), c.total + n)
  }

  /** What the buffer holds has no newline, so a terminal event ends inside the new chunk. */
  lemma DrainEatsBuffer<U, V>(s: Stream<U, V>, p: Parse<U, V>, buf: string, chunk: string)
    requires '\n' !in buf
    ensures var r := Drain(s, p, buf + chunk); r.stopped ==> |r.rest| < |chunk|
  {
    hide Drain;
    RestFollowsNewline(s, p, buf + chunk);
    var b, i := buf + chunk, Newline(buf + chunk, 0);
    hide Newline;
    if i < |b| {
      assert i >= |buf|;
    }
  }

  /** What a terminal event leaves lies behind the first newline. */
  lemma RestFollowsNewline<U, V>(s: Stream<U, V>, p: Parse<U, V>, b: string)
    ensures var r := Drain(s, p, b); r.stopped ==> Newline(b, 0) < |b| && |r.rest| < |b| - Newline(b, 0)
  {
    hide TakeLine;
  }

  /** One step of draining. */
  lemma DrainHead<U, V>(s: Stream<U, V>, p: Parse<U, V>, b: string)
    ensures var i := Newline(b, 0);
            Drain(s, p, b)
            == if i == |b| then Drained(p, b, false)
               else
                 var line, rest := TrimReturn(b[..i]), b[i + 1..];
                 var q := TakeLine(s, p, line);
                 if line == "" && q.seen.terminal then Drained(q, rest, true) else Drain(s, q, rest)
  {
    hide TakeLine, TrimReturn;
  }

  // ----------------------------------------------------------------- concatenation

  lemma {:induction false} NewlineExtends(a: string, b: string, from: nat)
    requires from <= |a|
    ensures Newline(a, from) < |a| ==> Newline(a + b, from) == Newline(a, from)
    decreases |a| - from
  {
    if from < |a| && a[from] != '\n' {
      assert (a + b)[from] == a[from];
      NewlineExtends(a, b, from + 1);
    }
  }

  /** Draining a longer buffer continues where draining the shorter one ended. */
  lemma {:induction false} DrainExtends<U, V>(s: Stream<U, V>, p: Parse<U, V>, a: string, b: string)
    ensures var r := Drain(s, p, a);
            Drain(s, p, a + b) == if r.stopped then r.(rest := r.rest + b) else Drain(s, r.parse, r.rest + b)
    decreases |a|
  {
    var i := Newline(a, 0);
    if i == |a| {
      hide TakeLine, Newline;
      assert Drain(s, p, a) == Drained(p, a, false);
    } else {
      hide Drain, TakeLine, TrimReturn, Newline;
      var raw, rest := a[..i], a[i + 1..];
      SplitAt(a, i, b);
      DrainLine(s, p, raw, rest);
      DrainLine(s, p, raw, rest + b);
      DrainExtends(s, TakeLine(s, p, TrimReturn(raw)), rest, b);
    }
  }

  lemma SplitAt(a: string, i: nat, b: string)
    requires i < |a| && a[i] == '\n'
    ensures a == a[..i] + "\n" + a[i + 1..] && a + b == a[..i] + "\n" + (a[i + 1..] + b)
  {
  }

  lemma FinishLeavesTerminal<U, V>(s: Stream<U, V>, p: Parse<U, V>, line: string)
    requires !p.seen.terminal && line != ""
    ensures !TakeLine(s, p, line).seen.terminal
  {
    hide AddField, Finish;
  }

  /** The parser stops exactly when it has reached a terminal event. */
  lemma {:induction false} StopsAtTerminal<U, V>(s: Stream<U, V>, p: Parse<U, V>, b: string)
    requires !p.seen.terminal
    ensures Drain(s, p, b).stopped == Drain(s, p, b).parse.seen.terminal
    decreases |b|
  {
    hide TakeLine;
    var i := Newline(b, 0);
    if i < |b| {
      var line := TrimReturn(b[..i]);
      var q := TakeLine(s, p, line);
      if line != "" {
        FinishLeavesTerminal(s, p, line);
      }
      if !(line == "" && q.seen.terminal) {
        StopsAtTerminal(s, q, b[i + 1..]);
      }
    }
  }

  // ------------------------------------------------------------- whole streams

  function Concat(chunks: seq<string>): string {
    if chunks == [] then "" else Concat(chunks[..|chunks| - 1]) + chunks[|chunks| - 1]
  }

  /** The collector after a run of reads; nothing is read past a terminal event. */
  function FeedAll<U, V>(s: Stream<U, V>, p: Parse<U, V>, chunks: seq<string>): (c: Collector<U, V>)
    ensures '\n' !in c.buf
  {
    if chunks == [] then Collector(p, "", "", 0)
    else
      var c := FeedAll(s, p, chunks[..|chunks| - 1]);
      if c.parse.seen.terminal then c else Feed(s, c, chunks[|chunks| - 1])
  }

  /** The same stream taken in one piece: its lines in order, up to the terminal event. */
  function Whole<U, V>(s: Stream<U, V>, p: Parse<U, V>, b: string): Collector<U, V> {
    var r := Drain(s, p, b);
    var n := if r.stopped then |b| - |r.rest| else |b|;
    Collector(r.parse, if r.stopped then "" else r.rest, Cut(b[..n], MAX_LOG_BODY_BYTES), n)
  }

  /** Every line of the stream, the unfinished last one included, fits the limit. */
  ghost predicate LinesFit(b: string) {
    forall i, j :: 0 <= i <= j <= |b| && '\n' !in b[i..j] ==> j - i <= MAX_SSE_EVENT_BYTES
  }

  lemma PrefixFits(a: string, b: string)
    requires LinesFit(a + b)
    ensures LinesFit(a)
  {
    forall i, j | 0 <= i <= j <= |a| && '\n' !in a[i..j] ensures j - i <= MAX_SSE_EVENT_BYTES {
      assert (a + b)[i..j] == a[i..j];
    }
  }

  /** The line that is unfinished at the end of these bytes is not over the limit; nothing is
      unfinished behind a terminal event. */
  predicate FitsAt<U, V>(s: Stream<U, V>, p: Parse<U, V>, b: string) {
    var r := Drain(s, p, b);
    r.stopped || |r.rest| <= MAX_SSE_EVENT_BYTES
  }

  /** So at every point of the stream. */
  ghost predicate FitsThroughout<U, V>(s: Stream<U, V>, p: Parse<U, V>, b: string) {
    forall a: string | a <= b :: FitsAt(s, p, a)
  }

  /** However a stream whose lines fit is cut into reads, the parser ends in the same state, with
      the same count of consumed bytes and the same stored prefix. */
  lemma ChunkIndependent<U, V>(s: Stream<U, V>, p: Parse<U, V>, chunks: seq<string>)
    requires !p.seen.terminal && LinesFit(Concat(chunks))
    ensures FeedAll(s, p, chunks) == Whole(s, p, Concat(chunks))
  {
    hide FeedAll, Whole, FitsThroughout;
    LinesFitThroughout(s, p, Concat(chunks));
    FittingCutsAgree(s, p, chunks);
  }

  lemma LinesFitThroughout<U, V>(s: Stream<U, V>, p: Parse<U, V>, b: string)
    requires LinesFit(b)
    ensures FitsThroughout(s, p, b)
  {
    hide LinesFit, Drain;
    forall a: string | a <= b ensures FitsAt(s, p, a) {
      assert a + b[|a|..] == b;
      PrefixFits(a, b[|a|..]);
      RestFits(s, p, a);
    }
  }

  lemma {:induction false} FittingCutsAgree<U, V>(s: Stream<U, V>, p: Parse<U, V>, chunks: seq<string>)
    requires !p.seen.terminal && FitsThroughout(s, p, Concat(chunks))
    ensures FeedAll(s, p, chunks) == Whole(s, p, Concat(chunks))
  {
    if chunks != [] {
      var a, b := Concat(chunks[..|chunks| - 1]), chunks[|chunks| - 1];
      assert Concat(chunks) == a + b && FitsAt(s, p, a + b);
      hide FitsAt, Feed, Whole;
      FittingCutsAgree(s, p, chunks[..|chunks| - 1]);
      FeedContinues(s, p, a, b);
    }
  }

  /** The parser is at every point in the state that the bytes so far define, whatever their cuts,
      exactly when no line is over the limit before a terminal event. */
  lemma IndependentExactlyWhen<U, V>(s: Stream<U, V>, p: Parse<U, V>, b: string)
    requires !p.seen.terminal
    ensures FitsThroughout(s, p, b)
            <==> forall cs | Concat(cs) <= b :: FeedAll(s, p, cs) == Whole(s, p, Concat(cs))
  {
    hide FeedAll, Whole, FitsAt;
    if FitsThroughout(s, p, b) {
      forall cs | Concat(cs) <= b ensures FeedAll(s, p, cs) == Whole(s, p, Concat(cs)) {
        FittingCutsAgree(s, p, cs);
      }
    } else {
      var a: string :| a <= b && !FitsAt(s, p, a);
      assert Concat([a]) == a by { assert [a][..0] == []; }
      OverflowDiffers(s, p, a);
    }
  }

  /** A line over the limit is cut down, and so not what the stream defines. */
  lemma OverflowDiffers<U, V>(s: Stream<U, V>, p: Parse<U, V>, a: string)
    requires !p.seen.terminal && !FitsAt(s, p, a)
    ensures FeedAll(s, p, [a]) != Whole(s, p, a)
  {
    hide Drain;
    assert [a][..0] == [] && "" + a == a;
  }

  /** One more read takes the state of a stream to the state of the longer stream. */
  lemma FeedContinues<U, V>(s: Stream<U, V>, p: Parse<U, V>, a: string, b: string)
    requires !p.seen.terminal && FitsAt(s, p, a + b)
    requires '\n' !in Whole(s, p, a).buf
    ensures Whole(s, p, a + b)
         == if Whole(s, p, a).parse.seen.terminal then Whole(s, p, a) else Feed(s, Whole(s, p, a), b)
  {
    hide Drain;
    var r, t := Drain(s, p, a), Drain(s, p, a + b);
    StopsAtTerminal(s, p, a);
    DrainExtends(s, p, a, b);
    if r.stopped {
      assert (a + b)[..|a| - |r.rest|] == a[..|a| - |r.rest|];
    } else {
      DrainEatsBuffer(s, r.parse, r.rest, b);
      var n := Consumed(t, b);
      assert (a + b)[..|a| + n] == a + b[..n];
      StoredIsCut(a, b[..n]);
    }
  }

  lemma RestFits<U, V>(s: Stream<U, V>, p: Parse<U, V>, b: string)
    requires LinesFit(b)
    ensures FitsAt(s, p, b)
  {
    hide Drain;
    var r := Drain(s, p, b);
    assert b[|b| - |r.rest|..|b|] == r.rest;
  }

  lemma StoredIsCut(a: string, b: string)
    ensures Stored(Cut(a, MAX_LOG_BODY_BYTES), b) == Cut(a + b, MAX_LOG_BODY_BYTES)
  {
  }

  /** Two ways of cutting one stream agree. */
  lemma CutsAgree<U, V>(s: Stream<U, V>, p: Parse<U, V>, one: seq<string>, other: seq<string>)
    requires !p.seen.terminal && LinesFit(Concat(one)) && Concat(one) == Concat(other)
    ensures FeedAll(s, p, one) == FeedAll(s, p, other)
  {
    ChunkIndependent(s, p, one);
    ChunkIndependent(s, p, other);
  }

  /** Draining a buffer takes its first line and goes on with the others. */
  lemma DrainLine<U, V>(s: Stream<U, V>, p: Parse<U, V>, raw: string, rest: string)
    requires '\n' !in raw
    ensures var q := TakeLine(s, p, TrimReturn(raw));
            Drain(s, p, raw + "\n" + rest)
            == if TrimReturn(raw) == "" && q.seen.terminal then Drained(q, rest, true) else Drain(s, q, rest)
  {
    hide TakeLine;
    var b := raw + "\n" + rest;
    var i := Newline(b, 0);
    assert b[|raw|] == '\n';
    assert i == |raw|;
    assert b[..i] == raw && b[i + 1..] == rest;
  }

  /** A terminal event ends with its blank line. */
  lemma {:induction false} TerminalEndsFrame<U, V>(s: Stream<U, V>, p: Parse<U, V>, head: string, rest: string)
    requires Drain(s, p, head + rest).stopped && Drain(s, p, head + rest).rest == rest
    ensures head != "" && head[|head| - 1] == '\n' && Drain(s, p, head + rest).parse.frame == NO_FRAME
    decreases |head|
  {
    hide Drain, TakeLine, TrimReturn, Newline;
    var i := FirstLineEnds(s, p, head, rest);
    var raw, more := head[..i], head[i + 1..];
    FirstLineOf(s, p, head, i, rest);
    var q := TakeLine(s, p, TrimReturn(raw));
    if TrimReturn(raw) == "" && q.seen.terminal {
      BlankEndsFrame(s, p);
    } else {
      TerminalEndsFrame(s, q, more, rest);
    }
  }

  /** What follows a terminal event has no influence. */
  lemma {:induction false} TerminalPointIsFixed<U, V>(s: Stream<U, V>, p: Parse<U, V>, head: string, rest: string,
                                                      tail: string)
    requires Drain(s, p, head + rest).stopped && Drain(s, p, head + rest).rest == rest
    ensures Drain(s, p, head + tail) == Drain(s, p, head + rest).(rest := tail)
    decreases |head|
  {
    hide Drain, TakeLine, TrimReturn, Newline;
    var i := FirstLineEnds(s, p, head, rest);
    var raw, more := head[..i], head[i + 1..];
    FirstLineOf(s, p, head, i, rest);
    FirstLineOf(s, p, head, i, tail);
    var q := TakeLine(s, p, TrimReturn(raw));
    if TrimReturn(raw) == "" && q.seen.terminal {
      assert |more + rest| == |rest|;
      assert more == "" && more + tail == tail;
    } else {
      TerminalPointIsFixed(s, q, more, rest, tail);
    }
  }

  lemma FirstLineOf<U, V>(s: Stream<U, V>, p: Parse<U, V>, head: string, i: nat, rest: string)
    requires i < |head| && head[i] == '\n' && '\n' !in head[..i]
    ensures var raw, more := head[..i], head[i + 1..];
            var q := TakeLine(s, p, TrimReturn(raw));
            Drain(s, p, head + rest)
            == if TrimReturn(raw) == "" && q.seen.terminal then Drained(q, more + rest, true)
               else Drain(s, q, more + rest)
  {
    hide Drain, TakeLine, TrimReturn;
    assert head + rest == head[..i] + "\n" + (head[i + 1..] + rest);
    DrainLine(s, p, head[..i], head[i + 1..] + rest);
  }

  lemma FirstLineEnds<U, V>(s: Stream<U, V>, p: Parse<U, V>, head: string, rest: string) returns (i: nat)
    requires Drain(s, p, head + rest).stopped && Drain(s, p, head + rest).rest == rest
    ensures i < |head| && head[i] == '\n' && '\n' !in head[..i]
  {
    hide TakeLine;
    i := Newline(head + rest, 0);
    assert (head + rest)[..i] == head[..i];
  }

  lemma BlankEndsFrame<U, V>(s: Stream<U, V>, p: Parse<U, V>)
    ensures TakeLine(s, p, "").frame == NO_FRAME
  {
  }

  // ------------------------------------------------------------ what a frame means

  predicate IsName(line: string) { HasPrefix(line, "event:") }

  predicate IsData(line: string) { HasPrefix(line, "data:") }

  function LastName<U, V>(s: Stream<U, V>, lines: seq<string>): string {
    if lines == [] then ""
    else if IsName(lines[|lines| - 1]) then s.decoder.trim(lines[|lines| - 1][6..])
    else LastName(s, lines[..|lines| - 1])
  }

  /** The data lines without their field name and one leading space. */
  function Payloads(lines: seq<string>): seq<string> {
    if lines == [] then []
    else
      var line := lines[|lines| - 1];
      Payloads(lines[..|lines| - 1])
      + if IsData(line) then [if |line| > 5 && line[5] == ' ' then line[6..] else line[5..]] else []
  }

  function DataBytes(lines: seq<string>): nat {
    if lines == [] then 0
    else DataBytes(lines[..|lines| - 1]) + if IsData(lines[|lines| - 1]) then |lines[|lines| - 1]| else 0
  }

  function Fields<U, V>(s: Stream<U, V>, lines: seq<string>): Frame {
    if lines == [] then NO_FRAME else AddField(s, Fields(s, lines[..|lines| - 1]), lines[|lines| - 1])
  }

  lemma FieldMeaning<U, V>(s: Stream<U, V>, f: Frame, line: string)
    requires f.oversized ==> f.bytes > MAX_SSE_EVENT_BYTES
    ensures AddField(s, f, line)
            == if IsName(line) then f.(name := s.decoder.trim(line[6..]))
               else if !IsData(line) then f
               else if f.bytes + |line| > MAX_SSE_EVENT_BYTES
               then f.(bytes := f.bytes + |line|, oversized := true, data := [])
               else f.(bytes := f.bytes + |line|,
                       data := f.data + [if |line| > 5 && line[5] == ' ' then line[6..] else line[5..]])
  {
  }

  lemma NeverBoth(line: string)
    ensures !(IsName(line) && IsData(line))
  {
    if IsName(line) {
      assert line[0] == 'e';
    }
  }

  /** A frame has the name of its last `event` line and the payloads of its `data` lines in
      order, unless the data lines together are over the limit: then it is oversized. */
  lemma {:induction false} FrameMeaning<U, V>(s: Stream<U, V>, lines: seq<string>)
    ensures var large := DataBytes(lines) > MAX_SSE_EVENT_BYTES;
            Fields(s, lines)
            == Frame(LastName(s, lines), if large then [] else Payloads(lines), DataBytes(lines), large)
  {
    if lines != [] {
      FrameMeaning(s, lines[..|lines| - 1]);
      NeverBoth(lines[|lines| - 1]);
      FieldMeaning(s, Fields(s, lines[..|lines| - 1]), lines[|lines| - 1]);
      hide AddField, IsName, IsData;
    }
  }

  /** The event a frame with data stands for: the type its data names, or else the frame's name. */
  function EventName<U, V>(s: Stream<U, V>, f: Frame): string {
    var types := s.decoder.types(Join(f.data));
    if types.Some? && types.value.0 != "" then types.value.0 else f.name
  }

  predicate Ignored<U, V>(s: Stream<U, V>, name: string) { s.path == RESPONSES && s.decoder.isMetadata(name) }

  /** What the validator says about a frame with data. */
  function Complaint<U, V>(s: Stream<U, V>, e: Seen<U, V>, f: Frame): Option<string> {
    var data := Join(f.data);
    var done := s.decoder.trim(data) == "[DONE]";
    var name := if done then f.name else EventName(s, f);
    s.decoder.validate(e.validator, e.error, name, if done then "[DONE]" else data).1
  }

  /** Exactly which frames end a stream, and which of those end it well. */
  lemma WhatEndsAStream<U, V>(s: Stream<U, V>, e: Seen<U, V>, f: Frame)
    requires !e.terminal && e.error.None?
    ensures var text := s.decoder.trim(Join(f.data));
            var name := EventName(s, f);
            var r := Finish(s, e, f);
            && (r.terminal <==>
                  || f.oversized || text == "[DONE]"
                  || (text != ""
                      && (Complaint(s, e, f).Some?
                          || (!Ignored(s, name) && (NamesFailure(name) || NamesSuccess(name))))))
            && (r.terminal && r.error.None? <==>
                  && !f.oversized && text != "" && Complaint(s, e, f).None?
                  && (text == "[DONE]" || (!Ignored(s, name) && NamesSuccess(name))))
  {
    NoteKeeps(e, "done");
    if s.decoder.trim(Join(f.data)) != "[DONE]" {
      DispatchEnds(s, e, f);
    }
    hide Note, Join, Dispatch, EventName, NamesSuccess, NamesFailure;
  }

  lemma DispatchEnds<U, V>(s: Stream<U, V>, e: Seen<U, V>, f: Frame)
    requires !e.terminal && e.error.None? && s.decoder.trim(Join(f.data)) != "[DONE]"
    ensures var name := EventName(s, f);
            var r := Dispatch(s, e, f.name, Join(f.data));
            && (r.terminal <==>
                  Complaint(s, e, f).Some? || (!Ignored(s, name) && (NamesFailure(name) || NamesSuccess(name))))
            && (r.terminal && r.error.None? <==> Complaint(s, e, f).None? && !Ignored(s, name) && NamesSuccess(name))
  {
    hide Note, Join, Conclude, StartsCompaction, NamesFailure, NamesSuccess;
    var data := Join(f.data);
    var noted := Note(AddUsage(s, e.(anyEvent := true), "data: " + data), EventName(s, f));
    NoteKeeps(AddUsage(s, e.(anyEvent := true), "data: " + data), EventName(s, f));
    var checked := Validate(s, noted, EventName(s, f), data);
    if checked.error.None? {
      ConcludeEnds(s, checked, EventName(s, f), data);
      ConcludeEnds(s, checked.(compaction := true), EventName(s, f), data);
    }
  }

  lemma ConcludeEnds<U, V>(s: Stream<U, V>, e: Seen<U, V>, name: string, data: string)
    requires !e.terminal && e.error.None?
    ensures var r := Conclude(s, e, name, data);
            && (r.terminal <==> !Ignored(s, name) && (NamesFailure(name) || NamesSuccess(name)))
            && (r.terminal && r.error.None? <==> !Ignored(s, name) && NamesSuccess(name))
  {
    assert |"error"| == 5 && |"message_stop"| == 12
           && |"response.failed"| == 15 && |"response.completed"| == 18 && |"response.incomplete"| == 19;
  }

  lemma NoteKeeps<U, V>(e: Seen<U, V>, name: string)
    ensures Note(e, name).(counts := e.counts, lastTerminal := e.lastTerminal) == e
  {
  }

  // -------------------------------------------------------------- counting the events

  /** At most 64 names have a counter of their own; the others share one. */
  predicate BoundedNames(counts: map<string, nat>) {
    |counts| <= COUNTED_NAMES || (|counts| == COUNTED_NAMES + 1 && "other" in counts)
  }

  ghost function Total(counts: map<string, nat>): nat
    decreases |counts|
  {
    if counts == map[] then 0 else var k :| k in counts; counts[k] + Total(counts - {k})
  }

  lemma {:induction false} TotalRemove(counts: map<string, nat>, k: string)
    requires k in counts
    ensures Total(counts) == counts[k] + Total(counts - {k})
    decreases |counts|
  {
    var j :| j in counts && Total(counts) == counts[j] + Total(counts - {j});
    if j != k {
      TotalRemove(counts - {j}, k);
      TotalRemove(counts - {k}, j);
      assert counts - {j} - {k} == counts - {k} - {j};
    }
  }

  /** Noting an event adds one to the total, and the number of counters stays bounded. */
  lemma NoteCountsOnce<U, V>(e: Seen<U, V>, name: string)
    ensures Total(Note(e, name).counts) == Total(e.counts) + 1
    ensures BoundedNames(e.counts) ==> BoundedNames(Note(e, name).counts)
  {
    hide CountedAs, Total;
    var counted := CountedAs(e.counts, name);
    CountOne(e.counts, counted);
    NameOne(e.counts, counted, Note(e, name).counts[counted]);
    if counted !in e.counts {
      NewName(e.counts, name);
    }
  }

  /** The total goes up by one. */
  lemma CountOne(counts: map<string, nat>, k: string)
    ensures Total(counts[k := (if k in counts then counts[k] else 0) + 1]) == Total(counts) + 1
  {
    hide Total;
    var n := if k in counts then counts[k] else 0;
    TotalRemove(counts[k := n + 1], k);
    assert counts[k := n + 1] - {k} == counts - {k};
    if k in counts {
      TotalRemove(counts, k);
    } else {
      assert counts - {k} == counts;
    }
  }

  /** There is one more name exactly if it is new. */
  lemma NameOne(counts: map<string, nat>, k: string, n: nat)
    ensures |counts[k := n]| == |counts| + if k in counts then 0 else 1
  {
    var after := counts[k := n];
    if k in counts {
      assert after.Keys == counts.Keys;
      SameSize(after, counts);
    } else {
      OneMore(after, counts, k);
    }
  }

  lemma SameSize(a: map<string, nat>, b: map<string, nat>)
    requires a.Keys == b.Keys
    ensures |a| == |b|
  {
    assert |a.Keys| == |a| && |b.Keys| == |b|;
  }

  lemma OneMore(a: map<string, nat>, b: map<string, nat>, k: string)
    requires a.Keys == b.Keys + {k} && k !in b
    ensures |a| == |b| + 1
  {
    assert |a.Keys| == |a| && |b.Keys| == |b|;
  }

  lemma NewName(counts: map<string, nat>, name: string)
    requires CountedAs(counts, name) !in counts
    ensures |counts| < COUNTED_NAMES || CountedAs(counts, name) == "other"
  {
  }

  lemma FrameKeepsNames<U, V>(s: Stream<U, V>, e: Seen<U, V>, f: Frame)
    requires BoundedNames(e.counts)
    ensures BoundedNames(Finish(s, e, f).counts)
  {
    hide Note, Join, BoundedNames, Dispatch;
    NoteCountsOnce(e, "done");
    DispatchCounts(s, e, f.name, Join(f.data));
  }

  lemma DispatchCounts<U, V>(s: Stream<U, V>, e: Seen<U, V>, name: string, data: string)
    requires BoundedNames(e.counts)
    ensures BoundedNames(Dispatch(s, e, name, data).counts)
  {
    hide Note, BoundedNames, StartsCompaction, Conclude;
    var types := s.decoder.types(data);
    var event := if types.Some? && types.value.0 != "" then types.value.0 else name;
    var used := AddUsage(s, e.(anyEvent := true), "data: " + data);
    NoteCountsOnce(used, event);
    var checked := Validate(s, Note(used, event), event, data);
    ConcludeCounts(s, checked, event, data);
    ConcludeCounts(s, checked.(compaction := true), event, data);
  }

  lemma ConcludeCounts<U, V>(s: Stream<U, V>, e: Seen<U, V>, name: string, data: string)
    ensures Conclude(s, e, name, data).counts == e.counts
  {
    StagesCount(s, e, name, data);
    StagesCount(s, Speak(s, e, name, data), name, data);
    StagesCount(s, CloseBy(s, Speak(s, e, name, data), name, data), name, data);
    hide Speak, CloseBy, MayCommit;
  }

  lemma StagesCount<U, V>(s: Stream<U, V>, e: Seen<U, V>, name: string, data: string)
    ensures Speak(s, e, name, data).counts == CloseBy(s, e, name, data).counts == e.counts
    ensures MayCommit(s, e, name).counts == e.counts
  {
    hide NamesSuccess, NamesFailure, HasPrefix;
  }

  /** However long the stream and however many kinds of event it has, the diagnostics keep at most
      65 counters. */
  lemma {:induction false} NamesStayBounded<U, V>(s: Stream<U, V>, p: Parse<U, V>, b: string)
    requires BoundedNames(p.seen.counts)
    ensures BoundedNames(Drain(s, p, b).parse.seen.counts)
    decreases |b|
  {
    hide Drain, TakeLine, BoundedNames, TrimReturn, Newline;
    var i := Newline(b, 0);
    DrainHead(s, p, b);
    if i < |b| {
      var line := TrimReturn(b[..i]);
      LineKeepsNames(s, p, line);
      if !(line == "" && TakeLine(s, p, line).seen.terminal) {
        NamesStayBounded(s, TakeLine(s, p, line), b[i + 1..]);
      }
    }
  }

  lemma LineKeepsNames<U, V>(s: Stream<U, V>, p: Parse<U, V>, line: string)
    requires BoundedNames(p.seen.counts)
    ensures BoundedNames(TakeLine(s, p, line).seen.counts)
  {
    FrameKeepsNames(s, p.seen, p.frame);
    hide Finish, AddField, BoundedNames;
  }

  // -------------------------------------------------------------- beyond the limit

  lemma BlankLineEnds<U, V>(s: Stream<U, V>, p: Parse<U, V>, raw: string)
    requires '\n' !in raw && TrimReturn(raw) != ""
    ensures Drain(s, p, raw + "\n\n") == Drain(s, TakeLine(s, p, TrimReturn(raw)), "\n")
  {
    hide TakeLine, TrimReturn, Drain;
    TwoNewlines(raw);
    DrainLine(s, p, raw, "\n");
  }

  lemma TwoNewlines(raw: string)
    ensures raw + "\n\n" == raw + "\n" + "\n"
  {
  }

  lemma DrainBlank<U, V>(s: Stream<U, V>, p: Parse<U, V>)
    ensures Drain(s, p, "\n").parse == TakeLine(s, p, "")
  {
    hide TakeLine;
    assert "" + "\n" + "" == "\n";
    DrainLine(s, p, "", "");
  }

  predicate Colons(b: string) { forall i :: 0 <= i < |b| ==> b[i] == ':' }

  /** Beyond the limit the cut does matter. However the first 16 MiB of a comment line are read,
      one more byte of it passes when its newline comes with the same read, and counts as an
      oversized event when the newline comes with the next read. */
  lemma LongLineDependsOnCut<U, V>(s: Stream<U, V>, p: Parse<U, V>, cs: seq<string>)
    requires p.frame == NO_FRAME && !p.seen.terminal && s.decoder.trim("") == ""
    requires |Concat(cs)| == MAX_SSE_EVENT_BYTES && Colons(Concat(cs))
    ensures Concat(cs + [":\n\n"]) == Concat(cs + [":", "\n\n"])
    ensures !FeedAll(s, p, cs + [":\n\n"]).parse.seen.terminal
    ensures FeedAll(s, p, cs + [":", "\n\n"]).parse.seen.terminal
  {
    hide Feed, FeedAll, Concat, Colons;
    SameBytes(cs);
    LongLineHeld(s, p, cs);
    var c := FeedAll(s, p, cs);
    FeedOneMore(s, p, cs, ":\n\n");
    LongLinePasses(s, c);
    FeedOneMore(s, p, cs, ":");
    FeedOneMore(s, p, cs + [":"], "\n\n");
    assert cs + [":"] + ["\n\n"] == cs + [":", "\n\n"];
    OneByteTooLong(s, c);
    OversizedEnds(s, Feed(s, c, ":"));
  }

  const READ_BYTES: nat := 0x8000

  function FullRead(): string { seq(READ_BYTES, _ => ':') }

  /** The same with the reads that the copy makes, of 32 KiB at most. */
  lemma BufferedReadsDiffer<U, V>(s: Stream<U, V>, p: Parse<U, V>)
    requires p.frame == NO_FRAME && !p.seen.terminal && s.decoder.trim("") == ""
    ensures var cs := seq(512, _ => FullRead());
            && Concat(cs + [":\n\n"]) == Concat(cs + [":", "\n\n"])
            && !FeedAll(s, p, cs + [":\n\n"]).parse.seen.terminal
            && FeedAll(s, p, cs + [":", "\n\n"]).parse.seen.terminal
  {
    hide Concat, FeedAll, FullRead;
    FullReads(512);
    LongLineDependsOnCut(s, p, seq(512, _ => FullRead()));
  }

  lemma {:induction false} FullReads(n: nat)
    ensures var cs := seq(n, _ => FullRead()); |Concat(cs)| == n * READ_BYTES && Colons(Concat(cs))
  {
    if n > 0 {
      FullReads(n - 1);
      assert seq(n, _ => FullRead())[..n - 1] == seq(n - 1, _ => FullRead());
    }
  }

  lemma SameBytes(cs: seq<string>)
    ensures Concat(cs + [":\n\n"]) == Concat(cs + [":", "\n\n"])
  {
    assert (cs + [":\n\n"])[..|cs|] == cs;
    assert (cs + [":", "\n\n"])[..|cs| + 1] == cs + [":"];
    assert (cs + [":"])[..|cs|] == cs;
  }

  lemma FeedOneMore<U, V>(s: Stream<U, V>, p: Parse<U, V>, cs: seq<string>, chunk: string)
    ensures var c := FeedAll(s, p, cs);
            FeedAll(s, p, cs + [chunk]) == if c.parse.seen.terminal then c else Feed(s, c, chunk)
  {
    hide Feed;
    assert (cs + [chunk])[..|cs|] == cs;
  }

  /** A line that fits the limit so far is held as it is, whatever its cuts. */
  lemma LongLineHeld<U, V>(s: Stream<U, V>, p: Parse<U, V>, cs: seq<string>)
    requires !p.seen.terminal && |Concat(cs)| <= MAX_SSE_EVENT_BYTES && Colons(Concat(cs))
    ensures FeedAll(s, p, cs).parse == p && FeedAll(s, p, cs).buf == Concat(cs)
  {
    ChunkIndependent(s, p, cs);
    hide TakeLine, FeedAll, Concat;
    assert Drain(s, p, Concat(cs)) == Drained(p, Concat(cs), false);
  }

  lemma LongLinePasses<U, V>(s: Stream<U, V>, c: Collector<U, V>)
    requires c.parse.frame == NO_FRAME && !c.parse.seen.terminal && s.decoder.trim("") == "" && Colons(c.buf)
    ensures !Feed(s, c, ":\n\n").parse.seen.terminal
  {
    hide TakeLine, Drain;
    var line := c.buf + ":";
    assert c.buf + ":\n\n" == line + "\n\n";
    var q := TakeLine(s, c.parse, line);
    CommentLine(s, c.parse, line);
    BlankLine(s, q);
    BlankLineEnds(s, c.parse, line);
    DrainBlank(s, q);
    StopsAtTerminal(s, c.parse, line + "\n\n");
  }

  lemma OneByteTooLong<U, V>(s: Stream<U, V>, c: Collector<U, V>)
    requires !c.parse.seen.terminal && |c.buf| == MAX_SSE_EVENT_BYTES && Colons(c.buf)
    ensures var d := Feed(s, c, ":");
            && !d.parse.seen.terminal && d.parse.frame.oversized && d.parse.frame.data == []
            && d.buf != "" && Colons(d.buf)
  {
    hide TakeLine;
    assert Drain(s, c.parse, c.buf + ":") == Drained(c.parse, c.buf + ":", false);
    hide Drain;
  }

  lemma CommentLine<U, V>(s: Stream<U, V>, p: Parse<U, V>, line: string)
    requires line != "" && line[0] == ':'
    ensures TakeLine(s, p, line).frame == p.frame && TakeLine(s, p, line).seen.terminal == p.seen.terminal
  {
    assert !HasPrefix(line, "event:") && !HasPrefix(line, "data:") by {
      assert "event:"[0] == 'e' && "data:"[0] == 'd';
    }
  }

  lemma BlankLine<U, V>(s: Stream<U, V>, p: Parse<U, V>)
    requires p.frame.data == []
    ensures p.frame.oversized ==> TakeLine(s, p, "").seen.terminal
    ensures !p.frame.oversized && s.decoder.trim("") == "" ==> TakeLine(s, p, "").seen.terminal == p.seen.terminal
  {
    hide Dispatch, Validate;
  }

  lemma OversizedEnds<U, V>(s: Stream<U, V>, c: Collector<U, V>)
    requires !c.parse.seen.terminal && c.parse.frame.oversized && c.parse.frame.data == []
    requires c.buf != "" && Colons(c.buf)
    ensures Feed(s, c, "\n\n").parse.seen.terminal
  {
    hide TakeLine, Drain;
    var q := TakeLine(s, c.parse, c.buf);
    CommentLine(s, c.parse, c.buf);
    BlankLine(s, q);
    BlankLineEnds(s, c.parse, c.buf);
    DrainBlank(s, q);
    StopsAtTerminal(s, c.parse, c.buf + "\n\n");
  }
}
