/** The copy of an event stream to the client: bytes are held back until the first output, a
    timer may release them at any moment, and after that only whole events are forwarded. */
module SseCopy {
  import opened Wrappers
  import opened SseParser
  import opened SseChunks
  import opened StreamCollector

  datatype ReadError = EndOfFile | TooLarge | Disconnected

  /** One read of the upstream body: some bytes, and possibly the end of the body. */
  datatype Read = Read(bytes: string, error: Option<ReadError>)

  datatype CopyResult = Done | Failed(reason: string)

  const HOLD_FAILURE := Failed("stream prefix exceeded limit before first token")

  /** The connection to the client. A write may fail after part of it went out, and no write
      succeeds after one has failed. */
  class ClientWriter {
    const net: nat -> Option<nat>
    var writes: nat
    var written: string
    var broken: bool
    ghost var handed: string  // everything given to Write, in order
    ghost var first: string   // what was given to the first Write

    /** The client has a prefix of what was handed over. A first write that fails leaves its part
        and nothing more; after a first write that succeeds, only a later one can break it. */
    ghost predicate Valid()
      reads this
    {
      && written <= handed && (!broken ==> written == handed)
      && (writes == 0 ==> handed == "" && !broken)
      && (writes >= 1 && net(0).Some? ==> broken && writes == 1 && written == Cut(first, net(0).value))
      && (net(0).None? && broken ==> writes >= 2)
      && (broken ==> writes >= 1 && net(writes - 1).Some?)
    }

    constructor (net: nat -> Option<nat>)
      ensures Valid() && this.net == net && handed == "" && written == "" && !broken && writes == 0
    {
      this.net := net;
      writes, written, broken, handed, first := 0, "", false, "", "";
    }

    method Write(p: string) returns (ok: bool)
      requires Valid()
      modifies this
      ensures Valid() && handed == old(handed) + p && old(written) <= written
      ensures ok == !broken && (old(broken) ==> broken)
      ensures writes == if old(broken) then old(writes) else old(writes) + 1
      ensures first == if old(writes) == 0 then p else old(first)
    {
      handed := handed + p;
      if writes == 0 {
        first := p;
      }
      if broken {
        return false;
      }
      ok := net(writes).None?;
      if ok {
        written := written + p;
      } else {
        var n := net(writes).value;
        written := written + p[..if n < |p| then n else |p|];
        broken := true;
      }
      writes := writes + 1;
    }
  }

  /** The bytes held back before the first output. Each method is one step under its lock. */
  class Hold {
    const client: ClientWriter
    const timer: nat -> bool
    var ticks: nat
    var sawBytes: bool
    var pending: string
    var released: bool
    var dead: bool
    var headers: nat          // how often the response headers were committed

    /** Until the release nothing has gone to the client; after it nothing is held. */
    ghost predicate Valid()
      reads this, client
    {
      && client.Valid()
      && (!released ==> client.handed == "" && client.writes == 0 && !client.broken && headers == 0)
      && (released ==> pending == "" && headers == 1)
    }

    constructor (client: ClientWriter, timer: nat -> bool)
      requires client.Valid() && client.handed == "" && client.writes == 0 && !client.broken
      ensures Valid() && this.client == client && this.timer == timer
      ensures !released && !dead && !sawBytes && pending == ""
    {
      this.client, this.timer := client, timer;
      ticks, sawBytes, pending, released, dead, headers := 0, false, "", false, false, 0;
    }

    method Buffer(chunk: string) returns (ok: bool)
      requires Valid()
      modifies this`pending
      ensures Valid()
      ensures ok == (!released && !dead && |old(pending)| + |chunk| <= MAX_SSE_EVENT_BYTES)
      ensures pending == if ok then old(pending) + chunk else old(pending)
    {
      if released || dead {
        return false;
      }
      if |pending| + |chunk| > MAX_SSE_EVENT_BYTES {
        return false;
      }
      pending := pending + chunk;
      ok := true;
    }

    /** Commits the headers and what is held, once; does nothing when the copy is over. */
    method Release()
      requires Valid()
      modifies this`pending, this`released, this`headers, client
      ensures Valid()
      ensures old(released) || dead ==>
                && released == old(released) && pending == old(pending) && headers == old(headers)
                && client.handed == old(client.handed) && client.written == old(client.written)
                && client.broken == old(client.broken) && client.writes == old(client.writes)
                && client.first == old(client.first)
      ensures !old(released) && !dead ==> released && client.handed == old(pending) && SilentlyBroken(client)
    {
      if released || dead {
        return;
      }
      released := true;
      headers := headers + 1;
      if |pending| > 0 {
        var ok := client.Write(pending);
        pending := "";
      }
    }

    /** The first-token timer may fire here: with bytes flowing it releases the hold. */
    method Tick()
      requires Valid()
      modifies this`ticks, this`pending, this`released, this`headers, client
      ensures Valid() && ticks == old(ticks) + 1
      ensures old(released) || dead ==>
                && released == old(released) && pending == old(pending) && headers == old(headers)
                && client.handed == old(client.handed) && client.written == old(client.written)
                && client.broken == old(client.broken) && client.writes == old(client.writes)
                && client.first == old(client.first)
      ensures !old(released) && !dead ==>
                if timer(old(ticks)) && sawBytes
                then released && client.handed == old(pending) && SilentlyBroken(client)
                else !released && pending == old(pending)
    {
      if timer(ticks) && sawBytes {
        Release();
      }
      ticks := ticks + 1;
    }
  }

  // ------------------------------------------------------------------ the copy loop

  /** A write has failed without being noticed only if it was the first one, and the last. */
  ghost predicate SilentlyBroken(client: ClientWriter)
    reads client
  {
    client.broken ==> client.writes == 1 && client.handed == client.first
  }

  /** What the client has of the bytes of a copy that succeeds: all of them, or the part that went
      out before the first write failed. */
  function Delivered(net: nat -> Option<nat>, consumed: string): string {
    if net(0).None? then consumed else Cut(consumed, net(0).value)
  }

  /** Where the bytes consumed so far are: held, or handed to the client up to the tail. A failed
      write can only have been the one that released the hold. */
  ghost predicate Placed(hold: Hold, consumed: string, tail: string)
    reads hold, hold.client
  {
    && hold.Valid() && !hold.dead
    && (!hold.released ==> hold.pending == consumed && tail == "")
    && (hold.released ==> hold.client.handed + tail == consumed)
    && SilentlyBroken(hold.client)
  }

  /** What holds however the copy ends. */
  ghost predicate Safe(hold: Hold, consumed: string, result: CopyResult)
    reads hold, hold.client
  {
    && hold.Valid()
    && hold.client.handed <= consumed
    && (result.Done? ==> hold.released && hold.client.handed == consumed && SilentlyBroken(hold.client))
  }

  method WriteTail(hold: Hold, tail: string, ghost consumed: string) returns (ok: bool)
    requires Placed(hold, consumed, tail) && hold.released
    modifies hold.client
    ensures hold.Valid() && hold.client.handed == consumed
    ensures ok ==> Placed(hold, consumed, "")
    ensures ok <==> tail == "" || !hold.client.broken
  {
    ok := true;
    if |tail| > 0 {
      ok := hold.client.Write(tail);
    }
  }

  /** Holds back a chunk, unless the timer has released the hold meanwhile or it is full. */
  method HoldChunk(hold: Hold, chunk: string, commit: bool, ghost consumed: string) returns (ok: bool)
    requires Placed(hold, consumed, "") && !hold.released
    modifies hold, hold.client
    ensures if ok then Placed(hold, consumed + chunk, "") && hold.client.handed <= consumed + chunk
            else Safe(hold, consumed + chunk, HOLD_FAILURE)
    ensures ok && commit ==> hold.released
    ensures Quiet(hold) ==> (ok <==> |consumed| + |chunk| <= MAX_SSE_EVENT_BYTES) && hold.released == (ok && commit)
  {
    hold.Tick();
    ok := hold.Buffer(chunk);
    if ok {
      hold.Tick();
      if commit {
        hold.Release();
      }
    }
  }

  /** The timer never fires. */
  ghost predicate Quiet(hold: Hold) { forall t: nat :: !hold.timer(t) }

  /** No write to the network fails. */
  ghost predicate Lossless(hold: Hold) { forall k: nat :: hold.client.net(k).None? }

  /** Why a copy fails when neither the timer nor the network interferes: the stream has an error,
      the hold is full before anything released it, or the body ends in a way that it must not. */
  predicate Blames<U, V>(col: StreamCollector<U, V>, hold: Hold, consumed: string, end: Option<ReadError>)
    reads col, hold
  {
    || col.seen.error.Some?
    || (!hold.released && |consumed| > MAX_SSE_EVENT_BYTES)
    || (!col.seen.terminal && end.Some? && (end.value != EndOfFile || col.stream.strict))
  }

  /** Nothing in the stream so far releases the hold or ends the copy. */
  predicate Silent<U, V>(seen: Seen<U, V>) { seen.firstOutput.None? && !seen.committable && !seen.terminal }

  predicate AtEventBoundary<U, V>(col: StreamCollector<U, V>)
    reads col
  {
    col.buf == "" && col.eventName == "" && col.eventData == [] && col.eventBytes == 0
  }

  /** The stream so far lets the client have its bytes: there was output, or, unless the hold is to
      last until then, an event of a response that has begun and has not failed. */
  predicate Commits<U, V>(seen: Seen<U, V>, holdUntilToken: bool) {
    seen.firstOutput.Some? || (!holdUntilToken && seen.committable && seen.error.None?)
  }

  /** An error that is not the upstream's own event and is reported to the client in its place. */
  predicate Rejected<U, V>(s: Stream<U, V>, seen: Seen<U, V>) {
    seen.error.Some? && s.path == RESPONSES && !NamesFailure(seen.lastTerminal)
  }

  /** Forwards a chunk that the collector has just taken; `None` means the copy goes on. Then the
      hold is released if the stream so far lets the client have it, without the timer exactly
      then; and between two events nothing released is kept back. */
  method Forward<U, V>(col: StreamCollector<U, V>, hold: Hold, chunk: string, pendingTail: string,
                       holdUntilToken: bool, ghost consumed: string)
    returns (tail: string, result: Option<CopyResult>)
    requires Placed(hold, consumed, pendingTail)
    modifies hold, hold.client
    ensures result.None? ==> Placed(hold, consumed + chunk, tail) && !col.seen.terminal
    ensures result.Some? ==> Safe(hold, consumed + chunk, result.value)
    ensures result == Some(Done) ==> col.seen.terminal && col.seen.error.None?
    ensures Quiet(hold) && !old(hold.released) && |consumed + chunk| <= MAX_SSE_EVENT_BYTES && Silent(col.seen) ==>
              result.None? && !hold.released
    ensures Quiet(hold) && Lossless(hold) && result.Some? && result.value.Failed? ==>
              Blames(col, hold, consumed + chunk, None)
    ensures old(hold.released) ==> hold.released
    ensures result.None? && Commits(col.seen, holdUntilToken) ==> hold.released
    ensures Quiet(hold) && result.None? ==>
              (hold.released <==> old(hold.released) || Commits(col.seen, holdUntilToken))
    ensures result.None? && hold.released && (!col.stream.strict || AtEventBoundary(col)) ==> tail == ""
    ensures result.None? && old(hold.released) && hold.client.handed != old(hold.client.handed) ==>
              !col.stream.strict || AtEventBoundary(col)
              || |consumed + chunk| - |old(hold.client.handed)| > MAX_SSE_EVENT_BYTES
    ensures old(hold.released) && Rejected(col.stream, col.seen) ==>
              hold.client.handed == old(hold.client.handed) && result == Some(Failed(col.seen.error.value))
    ensures old(hold.released) && Lossless(hold) && col.seen.terminal && !Rejected(col.stream, col.seen) ==>
              hold.client.handed == consumed + chunk
              && result == Some(if col.seen.error.Some? then Failed(col.seen.error.value) else Done)
  {
    hide Placed, Safe, Quiet, Lossless, NamesFailure;
    TimerMayFire(hold, consumed, pendingTail);
    tail, result := pendingTail, None;
    if !hold.released {
      var commit := col.seen.firstOutput.Some? || (col.seen.committable && !holdUntilToken && col.seen.error.None?);
      NoTail(hold, consumed, tail);
      var ok := HoldChunk(hold, chunk, commit, consumed);
      if !ok {
        return tail, Some(HOLD_FAILURE);
      }
    } else {
      tail, result := ForwardTail(col, hold, chunk, tail, consumed);
      if result.Some? {
        return;
      }
    }
    if col.seen.terminal {
      if col.seen.error.Some? {
        FailureIsSafe(hold, consumed + chunk, tail, col.seen.error.value);
        return tail, Some(Failed(col.seen.error.value));
      }
      FlushHold(hold, consumed + chunk);
      result := Some(Done);
    }
  }

  lemma NoTail(hold: Hold, consumed: string, tail: string)
    requires Placed(hold, consumed, tail) && !hold.released
    ensures tail == ""
  {
  }

  lemma FailureIsSafe(hold: Hold, consumed: string, tail: string, reason: string)
    requires Placed(hold, consumed, tail)
    ensures Safe(hold, consumed, Failed(reason))
  {
  }

  /** The chunk has been taken; from here on the timer finds bytes flowing. */
  method TimerMayFire(hold: Hold, ghost consumed: string, ghost tail: string)
    requires Placed(hold, consumed, tail)
    modifies hold, hold.client
    ensures Placed(hold, consumed, tail)
    ensures old(hold.released) ==> hold.released && hold.client.handed == old(hold.client.handed)
    ensures Quiet(hold) ==> hold.released == old(hold.released)
  {
    hold.sawBytes := true;
    hold.Tick();
  }

  /** The stream has ended well: what is still held goes out. */
  method FlushHold(hold: Hold, ghost consumed: string)
    requires Placed(hold, consumed, "")
    modifies hold, hold.client
    ensures Safe(hold, consumed, Done)
    ensures old(hold.released) ==> hold.client.handed == old(hold.client.handed)
  {
    hold.Tick();
    hold.Release();
  }

  /** Behind the release whole events are forwarded, so that a frame that is rejected on its
      closing blank line does not go out half written. */
  method ForwardTail<U, V>(col: StreamCollector<U, V>, hold: Hold, chunk: string, pendingTail: string,
                           ghost consumed: string)
    returns (tail: string, result: Option<CopyResult>)
    requires Placed(hold, consumed, pendingTail) && hold.released
    modifies hold.client
    ensures result.None? ==> Placed(hold, consumed + chunk, tail) && (col.seen.terminal ==> tail == "")
    ensures result.Some? ==> result.value.Failed? && Safe(hold, consumed + chunk, result.value)
    ensures Lossless(hold) && result.Some? ==> col.seen.error.Some?
    ensures result.None? && (!col.stream.strict || AtEventBoundary(col)) ==> tail == ""
    ensures hold.client.handed != old(hold.client.handed) ==>
              !col.stream.strict || col.seen.terminal || AtEventBoundary(col)
              || |consumed + chunk| - |old(hold.client.handed)| > MAX_SSE_EVENT_BYTES
    ensures Rejected(col.stream, col.seen) ==>
              hold.client.handed == old(hold.client.handed) && result == Some(Failed(col.seen.error.value))
    ensures Lossless(hold) && !Rejected(col.stream, col.seen) ==>
              result.None? && (col.seen.terminal ==> hold.client.handed == consumed + chunk)
  {
    hide NamesFailure;
    tail, result := pendingTail + chunk, None;
    assert Placed(hold, consumed + chunk, tail);
    if col.seen.error.Some? && col.stream.path == RESPONSES && !NamesFailure(col.seen.lastTerminal) {
      return tail, Some(Failed(col.seen.error.value));
    }
    if !col.stream.strict || col.seen.terminal || AtEventBoundary(col) || |tail| > MAX_SSE_EVENT_BYTES {
      var ok := WriteTail(hold, tail, consumed + chunk);
      if !ok {
        return tail, Some(Failed("write"));
      }
      tail := "";
    }
  }

  /** The bytes of the reads that carried some. */
  function Chunks(body: seq<Read>): seq<string> {
    if body == [] then []
    else Chunks(body[..|body| - 1]) + if body[|body| - 1].bytes == "" then [] else [body[|body| - 1].bytes]
  }

  lemma {:induction false} ConcatChunks(body: seq<Read>, n: nat)
    requires n < |body|
    ensures Concat(Chunks(body[..n + 1])) == Concat(Chunks(body[..n])) + body[n].bytes
  {
    assert body[..n + 1][..n] == body[..n];
    var before := Chunks(body[..n]);
    assert (before + [body[n].bytes])[..|before|] == before;
    assert Chunks(body[..n + 1]) == if body[n].bytes == "" then before else before + [body[n].bytes];
    assert Concat(before) + "" == Concat(before);
  }

  /** The collector has taken the first `n` reads; unless they hold a terminal event, all bytes. */
  ghost predicate Fed<U, V>(col: StreamCollector<U, V>, start: Parse<U, V>, body: seq<Read>, n: nat, consumed: string)
    requires n <= |body|
    reads col
  {
    && col.Valid()
    && col.State() == FeedAll(col.stream, start, Chunks(body[..n]))
    && |consumed| == col.total
    && consumed <= Concat(Chunks(body[..n]))
    && (!col.seen.terminal ==> consumed == Concat(Chunks(body[..n])))
  }

  /** Feeds the next read and gives the part of it that belongs to the stream. */
  method Take<U, V>(col: StreamCollector<U, V>, ghost start: Parse<U, V>, body: seq<Read>, n: nat,
                    ghost consumed: string)
    returns (chunk: string)
    requires n < |body| && body[n].bytes != "" && Fed(col, start, body, n, consumed) && !col.seen.terminal
    modifies col
    ensures Fed(col, start, body, n + 1, consumed + chunk) && chunk <= body[n].bytes
  {
    hide Feed;
    var k := col.FeedChunk(body[n].bytes);
    chunk := body[n].bytes[..k];
    ConcatChunks(body, n);
    assert body[..n + 1][..n] == body[..n];
    var before := Chunks(body[..n]);
    assert (before + [body[n].bytes])[..|before|] == before;
    NotStoppedTakesAll(col.stream, old(col.State()), body[n].bytes);
  }

  lemma NotStoppedTakesAll<U, V>(s: Stream<U, V>, c: Collector<U, V>, p: string)
    requires '\n' !in c.buf && !c.parse.seen.terminal
    ensures !Feed(s, c, p).parse.seen.terminal ==> Feed(s, c, p).total == c.total + |p|
  {
    hide Drain;
    StopsAtTerminal(s, c.parse, c.buf + p);
  }

  lemma NothingFed<U, V>(col: StreamCollector<U, V>, body: seq<Read>)
    requires col.Valid() && col.State() == Collector(col.State().parse, "", "", 0)
    ensures Fed(col, col.State().parse, body, 0, "")
  {
  }

  lemma SkipEmpty<U, V>(col: StreamCollector<U, V>, start: Parse<U, V>, body: seq<Read>, n: nat, consumed: string)
    requires n < |body| && body[n].bytes == "" && Fed(col, start, body, n, consumed)
    ensures Fed(col, start, body, n + 1, consumed)
  {
    assert body[..n + 1][..n] == body[..n];
    assert Chunks(body[..n + 1]) == Chunks(body[..n]);
  }

  /** The body ended without a terminal event. */
  method EndOfBody<U, V>(col: StreamCollector<U, V>, hold: Hold, tail: string, error: ReadError, ghost consumed: string)
    returns (result: CopyResult)
    requires Placed(hold, consumed, tail)
    modifies hold, hold.client
    ensures Safe(hold, consumed, result)
    ensures result.Done? ==> error == EndOfFile && (col.stream.strict ==> col.seen.terminal)
    ensures old(hold.released) ==> hold.released
    ensures error == EndOfFile && !col.stream.strict && !old(hold.released) ==> result.Done?
    ensures Lossless(hold) && result.Failed? ==> error != EndOfFile || (col.stream.strict && !col.seen.terminal)
  {
    if error != EndOfFile {
      return Failed("read");
    }
    if col.stream.strict && !col.seen.terminal {
      return Failed("upstream stream ended without terminal event");
    }
    hold.Tick();
    hold.Release();
    var ok := WriteTail(hold, tail, consumed);
    result := if ok then Done else Failed("write");
  }

  /** How the body ended when `n` reads were taken. */
  function Ending(body: seq<Read>, ending: ReadError, n: nat): Option<ReadError>
    requires n <= |body|
  {
    if n > 0 && body[n - 1].error.Some? then body[n - 1].error else if n == |body| then Some(ending) else None
  }

  /** A copy that ends well has seen a terminal event without an error, or the end of a body
      that needs none. */
  predicate EndsWell<U, V>(col: StreamCollector<U, V>, end: Option<ReadError>)
    reads col
  {
    if col.seen.terminal then col.seen.error.None? else !col.stream.strict && end == Some(EndOfFile)
  }

  // --------------------------------------------------------- the client during a copy

  /** What the client's side looks like after a read that left the copy going. */
  datatype Moment = Moment(released: bool, handed: string, written: string)

  ghost function Now(hold: Hold): Moment
    reads hold, hold.client
  {
    Moment(hold.released, hold.client.handed, hold.client.written)
  }

  /** Some reads were taken, and what they hold lets the client have its bytes. */
  predicate Releases<U, V>(s: Stream<U, V>, start: Parse<U, V>, body: seq<Read>, m: nat, holdUntilToken: bool)
    requires m <= |body|
  {
    var chunks := Chunks(body[..m]);
    chunks != [] && Commits(FeedAll(s, start, chunks).parse.seen, holdUntilToken)
  }

  /** Between two events: no line and no frame is unfinished. */
  predicate BetweenEvents<U, V>(c: Collector<U, V>) {
    c.buf == "" && c.parse.frame.name == "" && c.parse.frame.data == [] && c.parse.frame.bytes == 0
  }

  /** After `m` reads the client has what it should have: nothing while the hold lasts, and the hold
      does not outlast what lets the client have its bytes; between two events everything. */
  ghost predicate Prompt<U, V>(s: Stream<U, V>, start: Parse<U, V>, body: seq<Read>, m: nat, holdUntilToken: bool,
                               at: Moment)
    requires m <= |body|
  {
    && (Releases(s, start, body, m, holdUntilToken) ==> at.released)
    && (!at.released ==> at.handed == "")
    && at.written <= at.handed <= Concat(Chunks(body[..m]))
    && (at.released && (!s.strict || BetweenEvents(FeedAll(s, start, Chunks(body[..m])))) ==>
          at.handed == Concat(Chunks(body[..m])))
  }

  /** Behind the release a strict stream is handed on in whole events: more goes out with the m-th read
      only between two events, or when what is kept back no longer fits the limit. */
  ghost predicate InWholeEvents<U, V>(s: Stream<U, V>, start: Parse<U, V>, body: seq<Read>, m: nat, before: Moment,
                                      at: Moment)
    requires m <= |body|
  {
    s.strict && before.released && at.handed != before.handed ==>
      BetweenEvents(FeedAll(s, start, Chunks(body[..m])))
      || |Concat(Chunks(body[..m]))| - |before.handed| > MAX_SSE_EVENT_BYTES
  }

  /** Nothing but the bytes of the first `m` reads has released the hold. */
  ghost predicate NotEarly<U, V>(s: Stream<U, V>, start: Parse<U, V>, body: seq<Read>, m: nat, holdUntilToken: bool,
                                 at: Moment)
    requires m <= |body|
  {
    at.released ==> exists k :: 0 <= k <= m && Releases(s, start, body, k, holdUntilToken)
  }

  lemma EmptyReadReleases<U, V>(s: Stream<U, V>, start: Parse<U, V>, body: seq<Read>, m: nat, holdUntilToken: bool)
    requires m < |body| && body[m].bytes == ""
    ensures Releases(s, start, body, m + 1, holdUntilToken) == Releases(s, start, body, m, holdUntilToken)
  {
    hide FeedAll, Commits;
    assert body[..m + 1][..m] == body[..m];
    assert Chunks(body[..m + 1]) == Chunks(body[..m]);
  }

  lemma FedReleases<U, V>(col: StreamCollector<U, V>, start: Parse<U, V>, body: seq<Read>, m: nat, consumed: string,
                          holdUntilToken: bool)
    requires m < |body| && Fed(col, start, body, m + 1, consumed) && body[m].bytes != ""
    ensures Releases(col.stream, start, body, m + 1, holdUntilToken) == Commits(col.seen, holdUntilToken)
  {
    hide FeedAll, Commits;
    assert body[..m + 1][..m] == body[..m];
  }

  /** The end of a read that left the copy going. */
  lemma ReadIsPrompt<U, V>(col: StreamCollector<U, V>, hold: Hold, start: Parse<U, V>, body: seq<Read>, m: nat,
                           holdUntilToken: bool, consumed: string, tail: string)
    requires m <= |body| && Fed(col, start, body, m, consumed) && !col.seen.terminal && Placed(hold, consumed, tail)
    requires Releases(col.stream, start, body, m, holdUntilToken) ==> hold.released
    requires hold.released && (!col.stream.strict || AtEventBoundary(col)) ==> tail == ""
    ensures Prompt(col.stream, start, body, m, holdUntilToken, Now(hold))
    ensures Lossless(hold) ==> Now(hold).written == Now(hold).handed
  {
    hide FeedAll, Releases, Chunks, Concat;
    assert hold.client.handed + "" == hold.client.handed;
  }

  /** Handles one read; `None` means the copy goes on. */
  method TakeRead<U, V>(col: StreamCollector<U, V>, hold: Hold, body: seq<Read>, i: nat, pendingTail: string,
                        holdUntilToken: bool, ghost start: Parse<U, V>, ghost before: string)
    returns (tail: string, result: Option<CopyResult>, ghost consumed: string)
    requires i < |body| && Fed(col, start, body, i, before) && !col.seen.terminal && Placed(hold, before, pendingTail)
    modifies col, hold, hold.client
    ensures Fed(col, start, body, i + 1, consumed)
    ensures result.None? ==> Placed(hold, consumed, tail) && !col.seen.terminal && body[i].error.None?
    ensures result.Some? ==> Safe(hold, consumed, result.value)
    ensures result == Some(Done) ==> EndsWell(col, body[i].error)
    ensures Quiet(hold) && !old(hold.released) && |consumed| <= MAX_SSE_EVENT_BYTES && Silent(col.seen)
            && body[i].error.None? ==>
              result.None? && !hold.released
    ensures Quiet(hold) && Lossless(hold) && result.Some? && result.value.Failed? ==>
              Blames(col, hold, consumed, body[i].error)
    ensures old(hold.released) ==> hold.released
    ensures result.None? && body[i].bytes != "" && Commits(col.seen, holdUntilToken) ==> hold.released
    ensures Quiet(hold) && result.None? ==>
              (hold.released <==>
                 old(hold.released) || (body[i].bytes != "" && Commits(col.seen, holdUntilToken)))
    ensures result.None? && old(hold.released) && hold.client.handed != old(hold.client.handed) ==>
              !col.stream.strict || AtEventBoundary(col)
              || |consumed| - |old(hold.client.handed)| > MAX_SSE_EVENT_BYTES
    ensures (old(hold.released && (!col.stream.strict || AtEventBoundary(col))) ==> pendingTail == "") ==>
              (result.None? && hold.released && (!col.stream.strict || AtEventBoundary(col)) ==> tail == "")
  {
    hide Safe, Fed, Placed, Quiet, Lossless, Commits;
    tail, result, consumed := pendingTail, None, before;
    if |body[i].bytes| > 0 {
      var chunk := Take(col, start, body, i, before);
      consumed := before + chunk;
      tail, result := Forward(col, hold, chunk, tail, holdUntilToken, before);
      if result.Some? {
        return;
      }
    } else {
      SkipEmpty(col, start, body, i, before);
    }
    if body[i].error.Some? {
      var verdict := EndOfBody(col, hold, tail, body[i].error.value, consumed);
      result := Some(verdict);
    }
  }

  /** Read by read, the stream stays silent and fits the hold, and no read fails. */
  ghost predicate HeldThroughout<U, V>(s: Stream<U, V>, start: Parse<U, V>, body: seq<Read>) {
    && (forall m :: 0 <= m <= |body| ==> HeldUpTo(s, start, body, m))
    && (forall i :: 0 <= i < |body| ==> body[i].error.None?)
  }

  predicate HeldUpTo<U, V>(s: Stream<U, V>, start: Parse<U, V>, body: seq<Read>, m: nat)
    requires m <= |body|
  {
    Silent(FeedAll(s, start, Chunks(body[..m])).parse.seen) && |Concat(Chunks(body[..m]))| <= MAX_SSE_EVENT_BYTES
  }

  lemma HeldSoFar<U, V>(col: StreamCollector<U, V>, start: Parse<U, V>, body: seq<Read>, n: nat, consumed: string)
    requires 0 < n <= |body| && Fed(col, start, body, n, consumed) && HeldThroughout(col.stream, start, body)
    ensures Silent(col.seen) && |consumed| <= MAX_SSE_EVENT_BYTES && body[n - 1].error.None?
  {
    hide FeedAll;
    assert HeldUpTo(col.stream, start, body, n);
  }

  /** The client is served promptly, and without interference neither early nor in part. */
  ghost predicate Served<U, V>(hold: Hold, s: Stream<U, V>, start: Parse<U, V>, body: seq<Read>, m: nat,
                               holdUntilToken: bool, before: Moment, at: Moment)
    requires m <= |body|
  {
    && Prompt(s, start, body, m, holdUntilToken, at)
    && InWholeEvents(s, start, body, m, before, at)
    && (before.released ==> at.released)
    && (Quiet(hold) ==> NotEarly(s, start, body, m, holdUntilToken, at))
    && (Lossless(hold) ==> at.written == at.handed)
  }

  ghost predicate ServedThroughout<U, V>(hold: Hold, s: Stream<U, V>, start: Parse<U, V>, body: seq<Read>,
                                         holdUntilToken: bool, moments: seq<Moment>)
  {
    |moments| <= |body|
    && forall m :: 0 <= m < |moments| ==>
         Served(hold, s, start, body, m + 1, holdUntilToken, LastMoment(moments[..m]), moments[m])
  }

  const UNTOUCHED := Moment(false, "", "")

  function LastMoment(moments: seq<Moment>): Moment {
    if moments == [] then UNTOUCHED else moments[|moments| - 1]
  }

  lemma ServedOnceMore<U, V>(hold: Hold, s: Stream<U, V>, start: Parse<U, V>, body: seq<Read>, holdUntilToken: bool,
                             moments: seq<Moment>, at: Moment)
    requires ServedThroughout(hold, s, start, body, holdUntilToken, moments) && |moments| < |body|
    requires Served(hold, s, start, body, |moments| + 1, holdUntilToken, LastMoment(moments), at)
    ensures ServedThroughout(hold, s, start, body, holdUntilToken, moments + [at])
  {
    hide Served, LastMoment;
    var all := moments + [at];
    forall m | 0 <= m < |all|
      ensures Served(hold, s, start, body, m + 1, holdUntilToken, LastMoment(all[..m]), all[m])
    {
      assert m < |moments| ==> all[..m] == moments[..m];
      assert m == |moments| ==> all[..m] == moments;
    }
  }

  lemma ReadIsServed<U, V>(col: StreamCollector<U, V>, hold: Hold, start: Parse<U, V>, body: seq<Read>, i: nat,
                           holdUntilToken: bool, consumed: string, tail: string, was: Moment)
    requires i < |body| && Fed(col, start, body, i + 1, consumed) && !col.seen.terminal
    requires Placed(hold, consumed, tail)
    requires was.released ==> hold.released
    requires body[i].bytes != "" && Commits(col.seen, holdUntilToken) ==> hold.released
    requires Quiet(hold) ==>
               (hold.released <==> was.released || (body[i].bytes != "" && Commits(col.seen, holdUntilToken)))
    requires hold.released && (!col.stream.strict || AtEventBoundary(col)) ==> tail == ""
    requires Releases(col.stream, start, body, i, holdUntilToken) ==> was.released
    requires Quiet(hold) ==> NotEarly(col.stream, start, body, i, holdUntilToken, was)
    requires was.released && hold.client.handed != was.handed ==>
               !col.stream.strict || AtEventBoundary(col) || |consumed| - |was.handed| > MAX_SSE_EVENT_BYTES
    ensures Releases(col.stream, start, body, i + 1, holdUntilToken) ==> hold.released
    ensures Quiet(hold) ==> NotEarly(col.stream, start, body, i + 1, holdUntilToken, Now(hold))
    ensures Served(hold, col.stream, start, body, i + 1, holdUntilToken, was, Now(hold))
  {
    hide Fed, Placed, Quiet, Lossless, Releases, Commits, Prompt, AtEventBoundary;
    if body[i].bytes == "" {
      EmptyReadReleases(col.stream, start, body, i, holdUntilToken);
    } else {
      FedReleases(col, start, body, i, consumed, holdUntilToken);
    }
    ReadIsPrompt(col, hold, start, body, i + 1, holdUntilToken, consumed, tail);
    ReadIsWhole(col, hold, start, body, i + 1, consumed, was);
  }

  lemma ReadIsWhole<U, V>(col: StreamCollector<U, V>, hold: Hold, start: Parse<U, V>, body: seq<Read>, m: nat,
                          consumed: string, was: Moment)
    requires m <= |body| && Fed(col, start, body, m, consumed) && !col.seen.terminal
    requires was.released && hold.client.handed != was.handed ==>
               !col.stream.strict || AtEventBoundary(col) || |consumed| - |was.handed| > MAX_SSE_EVENT_BYTES
    ensures InWholeEvents(col.stream, start, body, m, was, Now(hold))
  {
    hide FeedAll, Chunks, Concat;
  }

  /** The copy goes on after `i` reads. */
  ghost predicate Going<U, V>(col: StreamCollector<U, V>, hold: Hold, start: Parse<U, V>, body: seq<Read>, i: nat,
                              holdUntilToken: bool, consumed: string, tail: string)
    requires i <= |body|
    reads col, hold, hold.client
  {
    && Fed(col, start, body, i, consumed) && !col.seen.terminal && Placed(hold, consumed, tail)
    && (i > 0 ==> body[i - 1].error.None?)
    && (Quiet(hold) && HeldThroughout(col.stream, start, body) ==> !hold.released)
    && (Releases(col.stream, start, body, i, holdUntilToken) ==> hold.released)
    && (hold.released && (!col.stream.strict || AtEventBoundary(col)) ==> tail == "")
    && (Quiet(hold) ==> NotEarly(col.stream, start, body, i, holdUntilToken, Now(hold)))
  }

  /** Handles the next read and keeps the account of it. */
  method NextRead<U, V>(col: StreamCollector<U, V>, hold: Hold, body: seq<Read>, i: nat, pendingTail: string,
                        holdUntilToken: bool, ghost start: Parse<U, V>, ghost before: string)
    returns (tail: string, result: Option<CopyResult>, ghost consumed: string)
    requires i < |body| && Going(col, hold, start, body, i, holdUntilToken, before, pendingTail)
    modifies col, hold, hold.client
    ensures Fed(col, start, body, i + 1, consumed)
    ensures result.None? ==>
              && Going(col, hold, start, body, i + 1, holdUntilToken, consumed, tail)
              && Served(hold, col.stream, start, body, i + 1, holdUntilToken, old(Now(hold)), Now(hold))
    ensures result.Some? ==> Safe(hold, consumed, result.value)
    ensures result == Some(Done) ==> EndsWell(col, body[i].error)
    ensures Quiet(hold) && HeldThroughout(col.stream, start, body) ==> result.None?
    ensures Quiet(hold) && Lossless(hold) && result.Some? && result.value.Failed? ==>
              Blames(col, hold, consumed, body[i].error)
  {
    hide Safe, Fed, Placed, Quiet, Lossless, HeldThroughout, Silent, EndsWell, Blames, Served, Releases,
         AtEventBoundary, Commits, NotEarly;
    ghost var was := Now(hold);
    tail, result, consumed := TakeRead(col, hold, body, i, pendingTail, holdUntilToken, start, before);
    if HeldThroughout(col.stream, start, body) {
      HeldSoFar(col, start, body, i + 1, consumed);
    }
    if result.None? {
      ReadIsServed(col, hold, start, body, i, holdUntilToken, consumed, tail, was);
    }
  }

  lemma NothingYet<U, V>(col: StreamCollector<U, V>, hold: Hold, body: seq<Read>, holdUntilToken: bool)
    requires col.Valid() && !col.seen.terminal && col.State() == Collector(col.State().parse, "", "", 0)
    requires Placed(hold, "", "") && !hold.released
    ensures Going(col, hold, col.State().parse, body, 0, holdUntilToken, "", "") && Now(hold) == UNTOUCHED
  {
    NothingFed(col, body);
    hide FeedAll, Fed, HeldThroughout;
    assert body[..0] == [];
  }

  lemma GoingMeans<U, V>(col: StreamCollector<U, V>, hold: Hold, start: Parse<U, V>, body: seq<Read>, i: nat,
                         holdUntilToken: bool, consumed: string, tail: string)
    requires i <= |body| && Going(col, hold, start, body, i, holdUntilToken, consumed, tail)
    ensures Fed(col, start, body, i, consumed) && !col.seen.terminal && Placed(hold, consumed, tail)
    ensures i > 0 ==> body[i - 1].error.None?
    ensures Quiet(hold) && HeldThroughout(col.stream, start, body) ==> !hold.released
  {
  }

  /** Copies an upstream body to the client. The body is the reads in order and then `ending`. The
      moments are those after each read that left the copy going. */
  method CopyReads<U, V>(col: StreamCollector<U, V>, hold: Hold, body: seq<Read>, ending: ReadError,
                         holdUntilToken: bool)
    returns (result: CopyResult, ghost n: nat, ghost consumed: string, ghost moments: seq<Moment>)
    requires col.Valid() && !col.seen.terminal && col.State() == Collector(col.State().parse, "", "", 0)
    requires Placed(hold, "", "") && !hold.released
    modifies col, hold, hold.client
    ensures n <= |body| && Fed(col, old(col.State().parse), body, n, consumed)
    ensures Safe(hold, consumed, result)
    ensures result.Done? ==> EndsWell(col, Ending(body, ending, n))
    ensures Quiet(hold) && HeldThroughout(col.stream, old(col.State().parse), body) && ending == EndOfFile
            && !col.stream.strict ==>
              result.Done? && n == |body|
    ensures Quiet(hold) && Lossless(hold) && result.Failed? ==> Blames(col, hold, consumed, Ending(body, ending, n))
    ensures |moments| <= n <= |moments| + 1
    ensures ServedThroughout(hold, col.stream, old(col.State().parse), body, holdUntilToken, moments)
  {
    NothingYet(col, hold, body, holdUntilToken);
    hide Going, Safe, Fed, Placed, StreamCollector.State, Quiet, Lossless, HeldThroughout, Ending, EndsWell, Blames,
         Served, ServedThroughout;
    ghost var start := col.State().parse;
    var tail := "";
    consumed, n, moments := "", 0, [];
    for i := 0 to |body|
      invariant Going(col, hold, start, body, i, holdUntilToken, consumed, tail)
      invariant |moments| == i && ServedThroughout(hold, col.stream, start, body, holdUntilToken, moments)
      invariant Now(hold) == LastMoment(moments)
    {
      n := i + 1;
      var verdict;
      tail, verdict, consumed := NextRead(col, hold, body, i, tail, holdUntilToken, start, consumed);
      if verdict.Some? {
        EndOfRead(col, hold, consumed, body, ending, i);
        return verdict.value, n, consumed, moments;
      }
      ServedOnceMore(hold, col.stream, start, body, holdUntilToken, moments, Now(hold));
      moments := moments + [Now(hold)];
    }
    n := |body|;
    GoingMeans(col, hold, start, body, n, holdUntilToken, consumed, tail);
    result := EndOfBody(col, hold, tail, ending, consumed);
    EndOfReads(col, hold, consumed, body, ending);
  }

  /** What a read says about the end of the body is what the body says. */
  lemma EndOfRead<U, V>(col: StreamCollector<U, V>, hold: Hold, consumed: string, body: seq<Read>, ending: ReadError,
                        i: nat)
    requires i < |body|
    ensures EndsWell(col, body[i].error) ==> EndsWell(col, Ending(body, ending, i + 1))
    ensures Blames(col, hold, consumed, body[i].error) ==> Blames(col, hold, consumed, Ending(body, ending, i + 1))
  {
  }

  lemma EndOfReads<U, V>(col: StreamCollector<U, V>, hold: Hold, consumed: string, body: seq<Read>, ending: ReadError)
    requires !col.seen.terminal && (body != [] ==> body[|body| - 1].error.None?)
    ensures !col.stream.strict && ending == EndOfFile ==> EndsWell(col, Ending(body, ending, |body|))
    ensures ending != EndOfFile || col.stream.strict ==> Blames(col, hold, consumed, Ending(body, ending, |body|))
  {
  }

  /** The whole copy; whatever its end, the hold is dead afterwards. The bytes the client got are
      a prefix of the bytes consumed. Success means that all of them were handed over, and lost
      only if the one write that released the hold failed. A failure with the hold unspent means
      that nothing was handed over. Without interference by timer and network, a copy fails only
      for what the stream or the body has done, or when the hold is full before its release. */
  method CopySSE<U, V>(col: StreamCollector<U, V>, hold: Hold, body: seq<Read>, ending: ReadError, holdUntilToken: bool)
    returns (result: CopyResult, ghost n: nat, ghost consumed: string, ghost moments: seq<Moment>)
    requires col.Valid() && !col.seen.terminal && col.State() == Collector(col.State().parse, "", "", 0)
    requires hold.Valid() && !hold.released && !hold.dead && hold.pending == ""
    modifies col, hold, hold.client
    ensures n <= |body| && Fed(col, old(col.State().parse), body, n, consumed)
    ensures hold.Valid() && hold.dead && hold.client.written <= consumed
    ensures result.Done? ==> hold.released && EndsWell(col, Ending(body, ending, n)) && hold.client.handed == consumed
    ensures result.Done? ==> hold.client.written == Delivered(hold.client.net, consumed)
    ensures result.Failed? && !hold.released ==> hold.client.handed == hold.client.written == "" && hold.headers == 0
    ensures Quiet(hold) && HeldThroughout(col.stream, old(col.State().parse), body) && ending == EndOfFile
            && !col.stream.strict ==>
              result.Done? && n == |body|
    ensures Quiet(hold) && Lossless(hold) ==>
              (result.Failed? ==> Blames(col, hold, consumed, Ending(body, ending, n)))
              && (result.Done? ==> hold.client.written == consumed)
    ensures |moments| <= n <= |moments| + 1
    ensures ServedThroughout(hold, col.stream, old(col.State().parse), body, holdUntilToken, moments)
  {
    hide Fed, EndsWell, ServedThroughout;
    result, n, consumed, moments := CopyReads(col, hold, body, ending, holdUntilToken);
    hold.dead := true;
  }

  /** A timer that fires after the copy is over, with the hold spent or not, changes nothing. */
  method FireLate(hold: Hold)
    requires hold.Valid() && hold.dead
    modifies hold, hold.client
    ensures hold.Valid() && hold.dead && hold.released == old(hold.released) && hold.headers == old(hold.headers)
    ensures hold.client.written == old(hold.client.written) && hold.client.handed == old(hold.client.handed)
  {
    hold.Tick();
  }

  // ------------------------------------------------- a success that loses everything

  const DEAF: Decoder<int, int> := Decoder(
    s => s, _ => false, (_, _) => false, _ => false, _ => 0, (u, _) => u, _ => None, (v, e, _, _) => (v, e),
    (_, _) => "")

  const COMMENT: seq<Read> := [Read(":\n", None)]

  lemma CommentIsSilent(s: Stream<int, int>, p: Parse<int, int>)
    requires !s.strict && !s.decoder.lineHasText(":") && Silent(p.seen)
    ensures Silent(TakeLine(s, p, ":").seen)
  {
    hide AddField;
  }

  lemma NothingToDrain(s: Stream<int, int>, p: Parse<int, int>)
    ensures Drain(s, p, "") == Drained(p, "", false)
  {
    hide TakeLine;
  }

  lemma CommentDrains(s: Stream<int, int>, p: Parse<int, int>)
    ensures Drain(s, p, ":\n") == Drained(TakeLine(s, p, ":"), "", false)
  {
    hide TakeLine, Drain;
    assert ":" + "\n" + "" == ":\n";
    assert TrimReturn(":") == ":";
    DrainLine(s, p, ":", "");
    NothingToDrain(s, TakeLine(s, p, ":"));
  }

  lemma CommentFeeds(s: Stream<int, int>, p: Parse<int, int>)
    requires !p.seen.terminal
    ensures FeedAll(s, p, [":\n"]).parse == TakeLine(s, p, ":")
  {
    hide TakeLine, Drain;
    assert [":\n"][..0] == [] && "" + ":\n" == ":\n";
    CommentDrains(s, p);
  }

  lemma CommentChunks()
    ensures COMMENT[..0] == [] && COMMENT[..1] == COMMENT
    ensures Chunks(COMMENT) == [":\n"] && Chunks(COMMENT[..0]) == []
    ensures Concat([":\n"]) == ":\n" && Concat([]) == ""
  {
    assert COMMENT[..0] == [];
    assert [":\n"][..0] == [];
  }

  lemma CommentIsHeld(s: Stream<int, int>, start: Parse<int, int>)
    requires !s.strict && !s.decoder.lineHasText(":") && Silent(start.seen)
    ensures HeldThroughout(s, start, COMMENT)
  {
    hide Chunks, Concat, TakeLine, Feed;
    CommentChunks();
    CommentIsSilent(s, start);
    CommentFeeds(s, start);
    assert HeldUpTo(s, start, COMMENT, 0);
    hide FeedAll;
    assert HeldUpTo(s, start, COMMENT, 1);
  }

  /** Every silent body over a connection that takes nothing: the copy reports success, and the
      client has none of the bytes. */
  method CopySilent<U, V>(col: StreamCollector<U, V>, hold: Hold, body: seq<Read>)
    returns (result: CopyResult, ghost consumed: string)
    requires col.Valid() && !col.seen.terminal && col.State() == Collector(col.State().parse, "", "", 0)
    requires hold.Valid() && !hold.released && !hold.dead && hold.pending == ""
    requires Quiet(hold) && hold.client.net(0) == Some(0)
    requires HeldThroughout(col.stream, col.State().parse, body) && !col.stream.strict
    modifies col, hold, hold.client
    ensures result == Done && hold.client.written == "" && consumed == Concat(Chunks(body))
  {
    hide Hold.Valid, HeldThroughout, EndsWell, Blames, Lossless, Quiet, StreamCollector.State;
    ghost var start, n, moments := col.State().parse, 0, [];
    assert HeldUpTo(col.stream, start, body, |body|) by { HeldToTheEnd(col.stream, start, body); }
    result, n, consumed, moments := CopySSE(col, hold, body, EndOfFile, false);
    hide HeldUpTo, FeedAll, Chunks, Concat;
    ConsumedAll(col, start, body, consumed);
  }

  lemma HeldToTheEnd<U, V>(s: Stream<U, V>, start: Parse<U, V>, body: seq<Read>)
    requires HeldThroughout(s, start, body)
    ensures HeldUpTo(s, start, body, |body|)
  {
  }

  lemma ConsumedAll<U, V>(col: StreamCollector<U, V>, start: Parse<U, V>, body: seq<Read>, consumed: string)
    requires Fed(col, start, body, |body|, consumed) && HeldUpTo(col.stream, start, body, |body|)
    ensures consumed == Concat(Chunks(body))
  {
    hide FeedAll, Chunks, Concat;
    assert body[..|body|] == body;
  }

  /** For instance a comment line. */
  method LoseSilently() returns (result: CopyResult, written: string, ghost consumed: string)
    ensures result == Done && consumed == ":\n" && written == ""
  {
    var client := new ClientWriter(_ => Some(0));
    var hold := new Hold(client, _ => false);
    var col := new StreamCollector<int, int>(Stream(DEAF, false, ""), 0, 0);
    CommentIsHeld(col.stream, col.State().parse);
    CommentChunks();
    hide HeldThroughout, Chunks, Concat;
    result, consumed := CopySilent(col, hold, COMMENT);
    written := client.written;
  }
}
