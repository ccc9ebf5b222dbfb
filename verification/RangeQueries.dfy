/** Range queries over the two indexes: complete Shanghai days come from day rows, the
    partial edges from minute rows, and the answer must be the plain merge of the minutes. */
module RangeQueries {
  import opened Wrappers
  import opened Aggregates

  /** Instants in milliseconds; the end is exclusive. */
  datatype Range = Range(from: int, until: int)

  const RETENTION_MS: int := 30 * 24 * 3600 * 1000
  const HOUR_MS: int := 3600000

  /** The first minute bucket that does not start before an instant. */
  function CeilMinute(t: int): int { -((-t) / MINUTE_MS) }

  function Midnight(d: int): int { DayStart(d) * MINUTE_MS }

  function FirstDay(r: Range): int {
    var d := ShanghaiDay(r.from);
    if Midnight(d) < r.from then d + 1 else d
  }

  function LastDay(r: Range): int { ShanghaiDay(r.until) }

  function Edges(r: Range): seq<Range> {
    if HasWholeDays(r) then
      (if r.from < Midnight(FirstDay(r)) then [Head(r)] else [])
      + (if Midnight(LastDay(r)) < r.until then [Tail(r)] else [])
    else [r]
  }

  /** The reference: every minute bucket from the start minute up to the end, merged in order. */
  function Plain(t: Table, series: Series, r: Range): Agg {
    SumRange(t, series, MinuteOf(r.from), CeilMinute(r.until))
  }

  predicate HasWholeDays(r: Range) { FirstDay(r) < LastDay(r) }

  function Head(r: Range): Range { Range(r.from, Midnight(FirstDay(r))) }

  function Tail(r: Range): Range { Range(Midnight(LastDay(r)), r.until) }

  /** What the day rows and the edges add up to. */
  function Fast(minutes: Table, days: Table, series: Series, r: Range): Agg {
    if HasWholeDays(r) then
      var whole := SumRange(days, series, FirstDay(r), LastDay(r));
      var head := if r.from < Midnight(FirstDay(r)) then Plain(minutes, series, Head(r)) else ZERO;
      var tail := if Midnight(LastDay(r)) < r.until then Plain(minutes, series, Tail(r)) else ZERO;
      Merge(Merge(whole, head), tail)
    else Plain(minutes, series, r)
  }

  // ------------------------------------------------------------------ retention

  /** Every minute from bucket `cut` on is still stored as it was written. */
  ghost predicate Retained(minutes: Table, written: Table, cut: int) {
    forall s: Slot :: s.bucket >= cut ==> At(minutes, s) == At(written, s)
  }

  predicate EdgesAfter(r: Range, cut: int) {
    forall i :: 0 <= i < |Edges(r)| ==> MinuteOf(Edges(r)[i].from) >= cut || Empty(Edges(r)[i])
  }

  predicate Empty(r: Range) { CeilMinute(r.until) <= MinuteOf(r.from) }

  lemma MidnightIsMinute(d: int)
    ensures MinuteOf(Midnight(d)) == CeilMinute(Midnight(d)) == DayStart(d)
  {
  }

  lemma Aligned(t: int)
    requires t % MINUTE_MS == 0
    ensures MinuteOf(t) == CeilMinute(t) && MinuteOf(t) * MINUTE_MS == t
  {
  }

  lemma MinutesInOrder(a: int, b: int)
    requires a <= b
    ensures MinuteOf(a) <= MinuteOf(b) && CeilMinute(a) <= CeilMinute(b) && MinuteOf(a) <= CeilMinute(a)
  {
  }

  lemma FirstDayIsAfter(r: Range)
    ensures Midnight(FirstDay(r)) >= r.from && Midnight(LastDay(r)) <= r.until
  {
    MinuteKeepsDay(r.from);
    MinuteKeepsDay(r.until);
  }

  lemma EdgeFromStored(minutes: Table, written: Table, series: Series, edge: Range, cut: int)
    requires Retained(minutes, written, cut) && (MinuteOf(edge.from) >= cut || Empty(edge))
    ensures Plain(minutes, series, edge) == Plain(written, series, edge)
  {
    hide Merge;
    SumDepends(minutes, written, series, MinuteOf(edge.from), CeilMinute(edge.until));
  }

  /** No bucket is missed and none is counted twice, even after old minutes were purged. */
  lemma FastIsPlain(minutes: Table, days: Table, written: Table, series: Series, r: Range, cut: int)
    requires DaysMatch(days, written) && Retained(minutes, written, cut) && EdgesAfter(r, cut)
    ensures Fast(minutes, days, series, r) == Plain(written, series, r)
  {
    hide Merge, SumRange, DaysMatch, Retained, Plain, DayStart;
    var edges := Edges(r);
    if !HasWholeDays(r) {
      assert edges[0] == r;
      EdgeFromStored(minutes, written, series, r, cut);
    } else {
      DaysSumToMinutes(days, written, series, FirstDay(r), LastDay(r));
      if r.from < Midnight(FirstDay(r)) {
        assert edges[0] == Head(r);
        EdgeFromStored(minutes, written, series, Head(r), cut);
      }
      if Midnight(LastDay(r)) < r.until {
        assert edges[|edges| - 1] == Tail(r);
        EdgeFromStored(minutes, written, series, Tail(r), cut);
      }
      JoinEdges(written, series, r);
    }
  }

  /** The head, the whole days and the tail cover the range exactly once. */
  lemma JoinEdges(written: Table, series: Series, r: Range)
    requires HasWholeDays(r)
    ensures var whole := SumRange(written, series, DayStart(FirstDay(r)), DayStart(LastDay(r)));
            var head := if r.from < Midnight(FirstDay(r)) then Plain(written, series, Head(r)) else ZERO;
            var tail := if Midnight(LastDay(r)) < r.until then Plain(written, series, Tail(r)) else ZERO;
            Merge(Merge(whole, head), tail) == Plain(written, series, r)
  {
    hide Merge, SumRange, DayStart;
    FirstDayIsAfter(r);
    MidnightIsMinute(FirstDay(r));
    MidnightIsMinute(LastDay(r));
    MinutesInOrder(r.from, Midnight(FirstDay(r)));
    MinutesInOrder(Midnight(LastDay(r)), r.until);
    DaysInOrder(FirstDay(r), LastDay(r));
    var lo, a, b, hi := MinuteOf(r.from), DayStart(FirstDay(r)), DayStart(LastDay(r)), CeilMinute(r.until);
    SumSplits(written, series, lo, b, hi);
    SumSplits(written, series, lo, a, b);
    EmptySum(written, series, a, a);
    EmptySum(written, series, b, b);
    MergeCommutes(SumRange(written, series, lo, a), SumRange(written, series, a, b));
  }

  lemma DaysInOrder(a: int, b: int)
    requires a <= b
    ensures DayStart(a) <= DayStart(b)
  {
  }

  lemma EmptySum(t: Table, series: Series, lo: int, hi: int)
    ensures lo >= hi ==> SumRange(t, series, lo, hi) == ZERO
  {
  }

  /** The condition is exact: an edge that starts in a purged bucket can lose what was there. */
  lemma PurgedEdgeLoses(series: Series, r: Range, cut: int)
    requires !EdgesAfter(r, cut) && r.from <= r.until
    ensures exists minutes: Table, days: Table, written: Table ::
              && DaysMatch(days, written) && Retained(minutes, written, cut)
              && Fast(minutes, days, series, r) != Plain(written, series, r)
  {
    hide Merge, SumRange, DayStart;
    var i :| 0 <= i < |Edges(r)| && MinuteOf(Edges(r)[i].from) < cut && !Empty(Edges(r)[i]);
    var edge := Edges(r)[i];
    var b := MinuteOf(edge.from);
    var d, one := ShanghaiDay(edge.from), ZERO.(requestsStarted := 1);
    var written, days := AddTo(map[], Slot(b, series), one), AddTo(map[], Slot(d, series), one);
    NothingMatches();
    MinuteKeepsDay(edge.from);
    AddKeepsDays(map[], map[], b, d, series, one);
    EdgeInRange(r, edge);
    SumAddTo(map[], Slot(b, series), one, series, MinuteOf(r.from), CeilMinute(r.until));
    SumAddTo(map[], Slot(d, series), one, series, FirstDay(r), LastDay(r));
    NothingSums(series, MinuteOf(r.from), CeilMinute(r.until));
    NothingSums(series, FirstDay(r), LastDay(r));
    NothingSums(series, MinuteOf(Head(r).from), CeilMinute(Head(r).until));
    NothingSums(series, MinuteOf(Tail(r).from), CeilMinute(Tail(r).until));
    MergeZero(one);
    MergeZero(ZERO);
    assert Plain(written, series, r) == one;
    assert Fast(map[], days, series, r) == ZERO;
    assert Retained(map[], written, cut);
  }

  lemma EdgeInRange(r: Range, edge: Range)
    requires edge in Edges(r) && r.from <= r.until && !Empty(edge)
    ensures MinuteOf(r.from) <= MinuteOf(edge.from) < CeilMinute(r.until)
    ensures !(FirstDay(r) <= ShanghaiDay(edge.from) < LastDay(r))
  {
    FirstDayIsAfter(r);
    MinuteKeepsDay(r.from);
    MinuteKeepsDay(r.until);
  }

  lemma NothingMatches()
    ensures DaysMatch(map[], map[])
  {
    forall series, d ensures At(map[], Slot(d, series)) == SumRange(map[], series, DayStart(d), DayStart(d + 1)) {
      NothingSums(series, DayStart(d), DayStart(d + 1));
    }
  }

  lemma {:induction false} NothingSums(series: Series, lo: int, hi: int)
    ensures SumRange(map[], series, lo, hi) == ZERO
    decreases hi - lo
  {
    hide Merge;
    if lo < hi {
      NothingSums(series, lo, hi - 1);
      MergeZero(ZERO);
    }
  }

  /** A purge at an earlier time never touches an accepted edge that starts on a minute. */
  lemma AcceptedEdgesAreRetained(r: Range, purgedAt: int, now: int)
    requires purgedAt <= now
    requires forall i :: 0 <= i < |Edges(r)| ==>
               Edges(r)[i].from >= now - RETENTION_MS && Edges(r)[i].from % MINUTE_MS == 0
    ensures EdgesAfter(r, CeilMinute(purgedAt - RETENTION_MS))
  {
    forall i | 0 <= i < |Edges(r)| ensures MinuteOf(Edges(r)[i].from) >= CeilMinute(purgedAt - RETENTION_MS) {
      Aligned(Edges(r)[i].from);
      MinutesInOrder(purgedAt - RETENTION_MS, Edges(r)[i].from);
    }
  }

  /** The fast sum is right for every database exactly when no edge starts in a purged bucket. */
  lemma FastIsPlainExactlyWhen(series: Series, r: Range, cut: int)
    requires r.from <= r.until
    ensures EdgesAfter(r, cut) <==>
              forall minutes: Table, days: Table, written: Table ::
                DaysMatch(days, written) && Retained(minutes, written, cut) ==>
                  Fast(minutes, days, series, r) == Plain(written, series, r)
  {
    hide Fast, Plain, EdgesAfter, DaysMatch, Retained;
    if EdgesAfter(r, cut) {
      forall minutes: Table, days: Table, written: Table | DaysMatch(days, written) && Retained(minutes, written, cut)
        ensures Fast(minutes, days, series, r) == Plain(written, series, r)
      {
        FastIsPlain(minutes, days, written, series, r, cut);
      }
    } else {
      PurgedEdgeLoses(series, r, cut);
    }
  }

  /** Such a range is accepted: it starts just inside the retention, in the middle of a bucket
      that a purge at that moment removes. */
  lemma AcceptedRangeLoses(series: Series)
    ensures var now, r := RETENTION_MS + 90000, Range(90000, 120000);
            var cut := CeilMinute(now - RETENTION_MS);
            && !TooOld(r, now) && !EdgesAfter(r, cut)
            && exists minutes: Table, days: Table, written: Table ::
                 && DaysMatch(days, written) && Retained(minutes, written, cut)
                 && Fast(minutes, days, series, r) != Plain(written, series, r)
  {
    hide DaysMatch, Retained, Fast, Plain;
    var now, r := RETENTION_MS + 90000, Range(90000, 120000);
    assert Edges(r) == [r];
    assert MinuteOf(Edges(r)[0].from) == 1 && CeilMinute(now - RETENTION_MS) == 2;
    PurgedEdgeLoses(series, r, CeilMinute(now - RETENTION_MS));
  }

  // -------------------------------------------------------------------- queries

  function MergeAll(rows: seq<Agg>): Agg {
    if rows == [] then ZERO else Merge(MergeAll(rows[..|rows| - 1]), rows[|rows| - 1])
  }

  lemma MergeAllSnoc(rows: seq<Agg>, row: Agg)
    ensures MergeAll(rows + [row]) == Merge(MergeAll(rows), row)
  {
    hide Merge;
    assert (rows + [row])[..|rows|] == rows;
  }

  lemma {:induction false} MergeAllConcat(a: seq<Agg>, b: seq<Agg>)
    ensures MergeAll(a + b) == Merge(MergeAll(a), MergeAll(b))
  {
    hide Merge;
    if b == [] {
      assert a + b == a;
      MergeZero(MergeAll(a));
    } else {
      var init, last := b[..|b| - 1], b[|b| - 1];
      assert a + b == (a + init) + [last];
      MergeAllSnoc(a + init, last);
      MergeAllConcat(a, init);
      MergeAssociates(MergeAll(a), MergeAll(init), last);
    }
  }

  /** The stored rows of a series from bucket `lo` up to `hi`. */
  method SelectRows(t: Table, series: Series, lo: int, hi: int) returns (rows: seq<Agg>)
    ensures MergeAll(rows) == SumRange(t, series, lo, hi)
  {
    hide Merge;
    rows := [];
    var b := lo;
    while b < hi
      invariant b == lo || lo < b <= hi
      invariant MergeAll(rows) == SumRange(t, series, lo, b)
    {
      if Slot(b, series) in t {
        MergeAllSnoc(rows, t[Slot(b, series)]);
        rows := rows + [t[Slot(b, series)]];
      } else {
        MergeZero(MergeAll(rows));
      }
      b := b + 1;
    }
  }

  predicate TooOld(r: Range, now: int) {
    exists i :: 0 <= i < |Edges(r)| && Edges(r)[i].from < now - RETENTION_MS
  }

  function AddEdges(minutes: Table, series: Series, start: Agg, edges: seq<Range>): Agg {
    if edges == [] then start
    else Merge(AddEdges(minutes, series, start, edges[..|edges| - 1]), Plain(minutes, series, edges[|edges| - 1]))
  }

  lemma EdgesMakeFast(minutes: Table, days: Table, series: Series, r: Range, start: Agg)
    requires start == if HasWholeDays(r) then SumRange(days, series, FirstDay(r), LastDay(r)) else ZERO
    ensures AddEdges(minutes, series, start, Edges(r)) == Fast(minutes, days, series, r)
  {
    hide Merge, Plain, SumRange, FirstDay, LastDay, Midnight, Head, Tail;
    if HasWholeDays(r) {
      var head, tail := r.from < Midnight(FirstDay(r)), Midnight(LastDay(r)) < r.until;
      MergeZero(start);
      if head && tail {
        AddTwo(minutes, series, start, Head(r), Tail(r));
      } else if head {
        AddOne(minutes, series, start, Head(r));
        MergeZero(Merge(start, Plain(minutes, series, Head(r))));
      } else if tail {
        AddOne(minutes, series, start, Tail(r));
      }
    } else {
      AddOne(minutes, series, start, r);
      MergeZero(Plain(minutes, series, r));
    }
  }

  lemma AddOne(minutes: Table, series: Series, start: Agg, e: Range)
    ensures AddEdges(minutes, series, start, [e]) == Merge(start, Plain(minutes, series, e))
  {
    hide Merge, Plain;
    assert [e][..0] == [];
  }

  lemma AddTwo(minutes: Table, series: Series, start: Agg, d: Range, e: Range)
    ensures AddEdges(minutes, series, start, [d, e])
         == Merge(Merge(start, Plain(minutes, series, d)), Plain(minutes, series, e))
  {
    hide Merge, Plain;
    assert [d, e][..1] == [d];
    AddOne(minutes, series, start, d);
  }

  method PlanEdges(r: Range) returns (edges: seq<Range>)
    ensures edges == Edges(r)
  {
    edges := [];
    var first, last := FirstDay(r), LastDay(r);
    if first < last {
      if r.from < Midnight(first) {
        edges := edges + [Range(r.from, Midnight(first))];
      }
      if Midnight(last) < r.until {
        edges := edges + [Range(Midnight(last), r.until)];
      }
    } else {
      edges := [r];
    }
  }

  method RangeRows(minutes: Table, days: Table, series: Series, r: Range, now: int) returns (result: Option<seq<Agg>>)
    ensures result.None? <==> TooOld(r, now)
    ensures result.Some? ==> MergeAll(result.value) == Fast(minutes, days, series, r)
  {
    hide Merge, SumRange, MergeAll, MinuteOf, CeilMinute, FirstDay, LastDay, Edges, Fast;
    var rows: seq<Agg> := [];
    if FirstDay(r) < LastDay(r) {
      rows := SelectRows(days, series, FirstDay(r), LastDay(r));
    }
    NoRows();
    var edges := PlanEdges(r);
    ghost var start := MergeAll(rows);
    EdgesMakeFast(minutes, days, series, r, start);
    for i := 0 to |edges|
      invariant forall j :: 0 <= j < i ==> edges[j].from >= now - RETENTION_MS
      invariant MergeAll(rows) == AddEdges(minutes, series, start, edges[..i])
    {
      var edge := edges[i];
      if edge.from < now - RETENTION_MS {
        return None;
      }
      var more := SelectRows(minutes, series, MinuteOf(edge.from), CeilMinute(edge.until));
      MergeAllConcat(rows, more);
      rows := rows + more;
      assert edges[..i + 1][..i] == edges[..i];
    }
    assert edges[..|edges|] == edges;
    result := Some(rows);
  }

  lemma NoRows()
    ensures MergeAll([]) == ZERO
  {
  }

  /** A range sum: an error for old unaligned edges, otherwise the plain merge of the minutes
      ever written, provided no edge starts in a purged bucket. */
  method SumQuery(minutes: Table, days: Table, series: Series, r: Range, now: int, ghost written: Table, ghost cut: int)
    returns (result: Option<Agg>)
    requires DaysMatch(days, written) && Retained(minutes, written, cut)
    ensures result.None? <==> TooOld(r, now)
    ensures result.Some? && EdgesAfter(r, cut) ==> result.value == Plain(written, series, r)
  {
    hide Merge, Fast, Plain;
    var rows := RangeRows(minutes, days, series, r, now);
    if rows.None? {
      return None;
    }
    var out := ZERO;
    for i := 0 to |rows.value|
      invariant out == MergeAll(rows.value[..i])
    {
      assert rows.value[..i + 1] == rows.value[..i] + [rows.value[i]];
      MergeAllSnoc(rows.value[..i], rows.value[i]);
      out := Merge(out, rows.value[i]);
    }
    assert rows.value[..|rows.value|] == rows.value;
    if EdgesAfter(r, cut) {
      FastIsPlain(minutes, days, written, series, r, cut);
    }
    result := Some(out);
  }

  // --------------------------------------------------------------------- trends

  datatype Granularity = ByMinute | ByHour | ByDay

  datatype Point = Point(bucket: int, range: Range, requests: Agg, attempts: Agg)

  function RequestsOf(points: seq<Point>): seq<Agg> {
    seq(|points|, i requires 0 <= i < |points| => points[i].requests)
  }

  function AttemptsOf(points: seq<Point>): seq<Agg> {
    seq(|points|, i requires 0 <= i < |points| => points[i].attempts)
  }

  predicate ValidGranularity(r: Range, gran: Granularity, now: int) {
    match gran
    case ByDay => Midnight(ShanghaiDay(r.from)) == r.from && Midnight(ShanghaiDay(r.until)) == r.until
    case _ => now - r.from <= RETENTION_MS
  }

  function Cursor(r: Range, gran: Granularity): int {
    match gran
    case ByMinute => r.from / MINUTE_MS * MINUTE_MS
    case ByHour => r.from / HOUR_MS * HOUR_MS
    case ByDay => Midnight(ShanghaiDay(r.from))
  }

  function NextCursor(cursor: int, gran: Granularity): int {
    match gran
    case ByMinute => cursor + MINUTE_MS
    case ByHour => cursor + HOUR_MS
    case ByDay => Midnight(ShanghaiDay(cursor) + 1)
  }

  function Clip(cursor: int, r: Range): int {
    if cursor < r.from then r.from else if cursor > r.until then r.until else cursor
  }

  lemma CursorStarts(r: Range, gran: Granularity)
    ensures Cursor(r, gran) <= r.from < NextCursor(Cursor(r, gran), gran)
    ensures Cursor(r, gran) % MINUTE_MS == 0
    ensures gran == ByDay ==> Midnight(ShanghaiDay(Cursor(r, gran))) == Cursor(r, gran)
  {
    hide ShanghaiDay, Midnight;
    match gran
    case ByMinute =>
      WholeMinutes(r.from / MINUTE_MS, 1);
    case ByHour =>
      WholeMinutes(r.from / HOUR_MS, 60);
    case ByDay =>
      DayContains(r.from);
      DayOfMidnight(ShanghaiDay(r.from));
  }

  lemma WholeMinutes(q: int, n: int)
    ensures (q * (n * MINUTE_MS)) % MINUTE_MS == 0
  {
    assert q * (n * MINUTE_MS) == (q * n) * MINUTE_MS;
  }

  lemma DayContains(t: int)
    ensures Midnight(ShanghaiDay(t)) <= t < Midnight(ShanghaiDay(t) + 1)
  {
  }

  lemma DayOfMidnight(d: int)
    ensures ShanghaiDay(Midnight(d)) == d && Midnight(d) % MINUTE_MS == 0
  {
  }

  lemma CursorAdvances(cursor: int, gran: Granularity)
    requires cursor % MINUTE_MS == 0
    ensures cursor < NextCursor(cursor, gran) && NextCursor(cursor, gran) % MINUTE_MS == 0
    ensures gran == ByDay ==> Midnight(ShanghaiDay(NextCursor(cursor, gran))) == NextCursor(cursor, gran)
  {
    hide ShanghaiDay, Midnight;
    if gran == ByDay {
      DayContains(cursor);
      DayOfMidnight(ShanghaiDay(cursor) + 1);
    }
  }

  /** A piece of the walk reads no purged bucket. */
  lemma PieceRetained(r: Range, gran: Granularity, piece: Range, cut: int)
    requires gran == ByDay || MinuteOf(r.from) >= cut
    requires r.from <= piece.from <= piece.until
    requires gran == ByDay ==>
               Midnight(ShanghaiDay(piece.from)) == piece.from && Midnight(ShanghaiDay(piece.until)) == piece.until
    ensures EdgesAfter(piece, cut)
  {
    FirstDayIsAfter(piece);
    forall i | 0 <= i < |Edges(piece)| ensures MinuteOf(Edges(piece)[i].from) >= cut || Empty(Edges(piece)[i]) {
      MinutesInOrder(r.from, Edges(piece)[i].from);
      if gran == ByDay {
        MidnightIsMinute(ShanghaiDay(piece.from));
      }
    }
  }

  lemma PiecesJoin(t: Table, series: Series, r: Range, pos: int, next: int)
    requires r.from <= pos <= next && (pos == r.from || pos % MINUTE_MS == 0)
    ensures pos == r.from ==> Plain(t, series, Range(r.from, next)) == Plain(t, series, Range(pos, next))
    ensures pos % MINUTE_MS == 0 ==>
              Plain(t, series, Range(r.from, next))
              == Merge(Plain(t, series, Range(r.from, pos)), Plain(t, series, Range(pos, next)))
  {
    hide Merge, SumRange;
    if pos % MINUTE_MS == 0 {
      Aligned(pos);
      MinutesInOrder(r.from, pos);
      MinutesInOrder(pos, next);
      SumSplits(t, series, MinuteOf(r.from), MinuteOf(pos), CeilMinute(next));
    }
  }

  predicate Exact(r: Range, gran: Granularity, cut: int) { gran == ByDay || MinuteOf(r.from) >= cut }

  ghost predicate SumsTo(points: seq<Point>, written: Table, r: Range) {
    && MergeAll(RequestsOf(points)) == Plain(written, Global(RequestFamily), r)
    && MergeAll(AttemptsOf(points)) == Plain(written, Global(AttemptFamily), r)
  }

  /** Where the walk stands when its cursor is at `cursor`. */
  ghost predicate Walked(points: seq<Point>, cursor: int, r: Range, gran: Granularity, written: Table, cut: int) {
    && cursor % MINUTE_MS == 0
    && (gran == ByDay ==> Midnight(ShanghaiDay(cursor)) == cursor)
    && (points == [] ==> cursor <= r.from < NextCursor(cursor, gran))
    && (points != [] ==> r.from < cursor && Tiles(points, Range(r.from, Clip(cursor, r))))
    && (points != [] && Exact(r, gran, cut) ==> SumsTo(points, written, Range(r.from, Clip(cursor, r))))
  }

  function Piece(cursor: int, r: Range, gran: Granularity): Range {
    var next := NextCursor(cursor, gran);
    Range(if cursor < r.from then r.from else cursor, if next > r.until then r.until else next)
  }

  lemma WalkOn(points: seq<Point>, point: Point, cursor: int, r: Range, gran: Granularity, now: int, written: Table,
               cut: int)
    requires Walked(points, cursor, r, gran, written, cut) && cursor < r.until && r.from < r.until
    requires ValidGranularity(r, gran, now) && point.range == Piece(cursor, r, gran)
    requires EdgesAfter(point.range, cut) ==>
               && point.requests == Plain(written, Global(RequestFamily), point.range)
               && point.attempts == Plain(written, Global(AttemptFamily), point.range)
    ensures Walked(points + [point], NextCursor(cursor, gran), r, gran, written, cut)
  {
    hide Merge, Plain, EdgesAfter, MinuteOf, ShanghaiDay, Midnight, NextCursor, MergeAll, RequestsOf, AttemptsOf;
    CursorAdvances(cursor, gran);
    var next, piece := NextCursor(cursor, gran), point.range;
    assert Tiles(points + [point], Range(r.from, Clip(next, r)));
    hide Tiles;
    if Exact(r, gran, cut) {
      PieceRetained(r, gran, piece, cut);
      PiecesJoin(written, Global(RequestFamily), r, piece.from, piece.until);
      PiecesJoin(written, Global(AttemptFamily), r, piece.from, piece.until);
      AddPoint(points, point);
      if points == [] {
        NothingYet(points);
        MergeZero(point.requests);
        MergeZero(point.attempts);
      }
    }
  }

  /** No piece of a valid range is too old to be read. */
  lemma PieceIsRecent(cursor: int, r: Range, gran: Granularity, now: int)
    requires ValidGranularity(r, gran, now) && cursor < r.until && r.from < r.until
    requires cursor <= r.from ==> r.from < NextCursor(cursor, gran)
    requires gran == ByDay ==> Midnight(ShanghaiDay(cursor)) == cursor
    ensures !TooOld(Piece(cursor, r, gran), now)
  {
    var piece := Piece(cursor, r, gran);
    CursorStaysAhead(cursor, gran);
    if gran == ByDay {
      DayOfMidnight(ShanghaiDay(cursor) + 1);
      WholeDaysHaveNoEdges(piece);
    } else {
      EdgesStartWithin(piece);
    }
  }

  lemma CursorStaysAhead(cursor: int, gran: Granularity)
    ensures cursor < NextCursor(cursor, gran)
  {
    DayContains(cursor);
    hide ShanghaiDay, Midnight;
  }

  lemma WholeDaysHaveNoEdges(r: Range)
    requires Midnight(ShanghaiDay(r.from)) == r.from < r.until == Midnight(ShanghaiDay(r.until))
    ensures Edges(r) == []
  {
    hide ShanghaiDay;
  }

  lemma EdgesStartWithin(r: Range)
    requires r.from < r.until
    ensures forall i :: 0 <= i < |Edges(r)| ==> Edges(r)[i].from >= r.from
  {
    FirstDayIsAfter(r);
  }

  /** The bucket walk: its points tile the range, and merging them gives the sum over all of it.
      It fails for just the ranges that the granularity does not allow. */
  method Trends(minutes: Table, days: Table, r: Range, gran: Granularity, now: int, ghost written: Table,
                ghost cut: int)
    returns (result: Option<seq<Point>>)
    requires r.from < r.until
    requires DaysMatch(days, written) && Retained(minutes, written, cut)
    ensures result.None? <==> !ValidGranularity(r, gran, now)
    ensures result.Some? ==> Tiles(result.value, r)
    ensures result.Some? && Exact(r, gran, cut) ==> SumsTo(result.value, written, r)
  {
    hide Merge, Plain, EdgesAfter, TooOld, DaysMatch, Retained, ValidGranularity, Exact, Tiles, SumsTo, ShanghaiDay;
    if !ValidGranularity(r, gran, now) {
      return None;
    }
    var points: seq<Point> := [];
    var cursor := Cursor(r, gran);
    CursorStarts(r, gran);
    while cursor < r.until
      invariant Walked(points, cursor, r, gran, written, cut)
      invariant cursor >= r.until ==> points != []
      decreases r.until - cursor
    {
      var next := NextCursor(cursor, gran);
      CursorAdvances(cursor, gran);
      var until := if next > r.until then r.until else next;
      var start := if cursor < r.from then r.from else cursor;
      PieceIsRecent(cursor, r, gran, now);
      var requests := SumQuery(minutes, days, Global(RequestFamily), Range(start, until), now, written, cut);
      if requests.None? {
        return None;
      }
      var attempts := SumQuery(minutes, days, Global(AttemptFamily), Range(start, until), now, written, cut);
      if attempts.None? {
        return None;
      }
      var point := Point(cursor, Range(start, until), requests.value, attempts.value);
      WalkOn(points, point, cursor, r, gran, now, written, cut);
      points := points + [point];
      cursor := next;
    }
    result := Some(points);
  }

  /** The points cover the range without a gap or an overlap, in order. */
  ghost predicate Tiles(points: seq<Point>, r: Range) {
    && points != []
    && points[0].range.from == r.from
    && points[|points| - 1].range.until == r.until
    && (forall i :: 0 <= i < |points| ==> points[i].range.from < points[i].range.until)
    && (forall i :: 0 < i < |points| ==> points[i - 1].range.until == points[i].range.from)
  }

  lemma NothingYet(points: seq<Point>)
    requires points == []
    ensures MergeAll(RequestsOf(points)) == MergeAll(AttemptsOf(points)) == ZERO
  {
  }

  lemma AddPoint(points: seq<Point>, point: Point)
    ensures MergeAll(RequestsOf(points + [point])) == Merge(MergeAll(RequestsOf(points)), point.requests)
    ensures MergeAll(AttemptsOf(points + [point])) == Merge(MergeAll(AttemptsOf(points)), point.attempts)
  {
    hide Merge;
    assert RequestsOf(points + [point]) == RequestsOf(points) + [point.requests];
    assert AttemptsOf(points + [point]) == AttemptsOf(points) + [point.attempts];
    MergeAllSnoc(RequestsOf(points), point.requests);
    MergeAllSnoc(AttemptsOf(points), point.attempts);
  }

  // ------------------------------------------------------------------- rankings

  datatype Kind = Groups | Providers

  function SeriesOf(kind: Kind, family: Family, id: nat): Series {
    if kind == Groups then Group(family, id) else Provider(family, id)
  }

  function Selected(t: Table, kind: Kind, family: Family, lo: int, hi: int): set<Slot> {
    set s | s in t && !s.series.Global? && s.series == SeriesOf(kind, family, s.series.id) && lo <= s.bucket < hi
  }

  /** What the rows of one id in a list of (id, row) pairs merge to. */
  function MergeId(rows: seq<(nat, Agg)>, id: nat): Agg {
    if rows == [] then ZERO
    else
      var rest := MergeId(rows[..|rows| - 1], id);
      if rows[|rows| - 1].0 == id then Merge(rest, rows[|rows| - 1].1) else rest
  }

  lemma MergeIdSnoc(rows: seq<(nat, Agg)>, row: (nat, Agg), id: nat)
    ensures MergeId(rows + [row], id) == if row.0 == id then Merge(MergeId(rows, id), row.1) else MergeId(rows, id)
  {
    hide Merge;
    assert (rows + [row])[..|rows|] == rows;
  }

  lemma {:induction false} MergeIdConcat(a: seq<(nat, Agg)>, b: seq<(nat, Agg)>, id: nat)
    ensures MergeId(a + b, id) == Merge(MergeId(a, id), MergeId(b, id))
  {
    hide Merge;
    if b == [] {
      assert a + b == a;
      MergeZero(MergeId(a, id));
    } else {
      var init, last := b[..|b| - 1], b[|b| - 1];
      assert a + b == (a + init) + [last];
      MergeIdSnoc(a + init, last, id);
      MergeIdConcat(a, init, id);
      MergeAssociates(MergeId(a, id), MergeId(init, id), last.1);
    }
  }

  /** The stored rows of every id of a dimension, in no particular order. */
  method SelectAll(t: Table, kind: Kind, family: Family, lo: int, hi: int) returns (rows: seq<(nat, Agg)>)
    ensures forall id :: MergeId(rows, id) == SumRange(t, SeriesOf(kind, family, id), lo, hi)
  {
    hide Merge, SumRange;
    rows := [];
    var todo := Selected(t, kind, family, lo, hi);
    ghost var part: Table := map[];
    forall id ensures MergeId(rows, id) == SumRange(part, SeriesOf(kind, family, id), lo, hi) {
      NothingSums(SeriesOf(kind, family, id), lo, hi);
    }
    while todo != {}
      invariant todo <= Selected(t, kind, family, lo, hi)
      invariant part.Keys == Selected(t, kind, family, lo, hi) - todo
      invariant forall s :: s in part ==> part[s] == t[s]
      invariant forall id :: MergeId(rows, id) == SumRange(part, SeriesOf(kind, family, id), lo, hi)
    {
      var s :| s in todo;
      var row := (s.series.id, t[s]);
      MergeZero(t[s]);
      ghost var more := AddTo(part, s, t[s]);
      forall id ensures MergeId(rows + [row], id) == SumRange(more, SeriesOf(kind, family, id), lo, hi) {
        MergeIdSnoc(rows, row, id);
        SumAddTo(part, s, t[s], SeriesOf(kind, family, id), lo, hi);
        assert MergeId(rows, id) == SumRange(part, SeriesOf(kind, family, id), lo, hi);
      }
      rows, part, todo := rows + [row], more, todo - {s};
    }
    forall id ensures MergeId(rows, id) == SumRange(t, SeriesOf(kind, family, id), lo, hi) {
      assert MergeId(rows, id) == SumRange(part, SeriesOf(kind, family, id), lo, hi);
      SumDepends(part, t, SeriesOf(kind, family, id), lo, hi);
    }
  }

  method RangeRowsAll(minutes: Table, days: Table, kind: Kind, family: Family, r: Range, now: int)
    returns (result: Option<seq<(nat, Agg)>>)
    ensures result.None? <==> TooOld(r, now)
    ensures result.Some? ==>
              forall id :: MergeId(result.value, id) == Fast(minutes, days, SeriesOf(kind, family, id), r)
  {
    hide Merge, SumRange, MergeId, MinuteOf, CeilMinute, FirstDay, LastDay, Edges, Fast, SeriesOf;
    var rows: seq<(nat, Agg)> := [];
    if FirstDay(r) < LastDay(r) {
      rows := SelectAll(days, kind, family, FirstDay(r), LastDay(r));
    } else {
      NoIdRows();
    }
    var edges := PlanEdges(r);
    ghost var start := rows;
    for i := 0 to |edges|
      invariant forall j :: 0 <= j < i ==> edges[j].from >= now - RETENTION_MS
      invariant forall id :: MergeId(rows, id)
                  == AddEdges(minutes, SeriesOf(kind, family, id), MergeId(start, id), edges[..i])
    {
      var edge := edges[i];
      if edge.from < now - RETENTION_MS {
        return None;
      }
      var more := SelectAll(minutes, kind, family, MinuteOf(edge.from), CeilMinute(edge.until));
      forall id ensures MergeId(rows + more, id)
          == AddEdges(minutes, SeriesOf(kind, family, id), MergeId(start, id), edges[..i + 1]) {
        MergeIdConcat(rows, more, id);
        assert edges[..i + 1][..i] == edges[..i];
        assert MergeId(more, id) == Plain(minutes, SeriesOf(kind, family, id), edge);
      }
      rows := rows + more;
    }
    assert edges[..|edges|] == edges;
    forall id ensures MergeId(rows, id) == Fast(minutes, days, SeriesOf(kind, family, id), r) {
      EdgesMakeFast(minutes, days, SeriesOf(kind, family, id), r, MergeId(start, id));
    }
    result := Some(rows);
  }

  lemma NoIdRows()
    ensures forall id :: MergeId([], id) == ZERO
  {
  }

  /** One merged row for each id of a dimension that has any. */
  method ListDim(minutes: Table, days: Table, kind: Kind, family: Family, r: Range, now: int,
                 ghost written: Table, ghost cut: int)
    returns (result: Option<map<nat, Agg>>)
    requires DaysMatch(days, written) && Retained(minutes, written, cut)
    ensures result.None? <==> TooOld(r, now)
    ensures result.Some? && EdgesAfter(r, cut) ==>
              forall id :: (if id in result.value then result.value[id] else ZERO)
                           == Plain(written, SeriesOf(kind, family, id), r)
  {
    hide Merge, Fast, Plain, SeriesOf;
    var rows := RangeRowsAll(minutes, days, kind, family, r, now);
    if rows.None? {
      return None;
    }
    var merged: map<nat, Agg> := map[];
    for i := 0 to |rows.value|
      invariant forall id :: (if id in merged then merged[id] else ZERO) == MergeId(rows.value[..i], id)
    {
      var (id, row) := rows.value[i];
      assert rows.value[..i + 1] == rows.value[..i] + [rows.value[i]];
      forall j ensures MergeId(rows.value[..i + 1], j)
          == if j == id then Merge(MergeId(rows.value[..i], j), row) else MergeId(rows.value[..i], j) {
        MergeIdSnoc(rows.value[..i], rows.value[i], j);
      }
      merged := merged[id := Merge(if id in merged then merged[id] else ZERO, row)];
    }
    assert rows.value[..|rows.value|] == rows.value;
    if EdgesAfter(r, cut) {
      forall id ensures MergeId(rows.value, id) == Plain(written, SeriesOf(kind, family, id), r) {
        FastIsPlain(minutes, days, written, SeriesOf(kind, family, id), r, cut);
      }
    }
    result := Some(merged);
  }
}
