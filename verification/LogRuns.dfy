/** Every run of log writes and sweeps over one row: reordering, repetition and loss of writes do
    not matter, and the row becomes terminal once. */
module LogRuns {
  import opened Wrappers
  import opened LogRows

  datatype Step =
    | Issue(patch: Patch)                                            // the gateway numbers an update
    | Deliver(revision: nat)                                         // some issued write reaches the database
    | SweepRead(now: nat)                                            // a sweeper reads the row if it is stale
    | SweepWrite(reader: nat, last: Option<LastAttempt>, now: nat)   // and later tries to finalize it

  datatype Sys = Sys(patches: seq<Patch>, row: Row, seen: seq<Row>)

  predicate Closed(patches: seq<Patch>) { exists i :: 0 <= i < |patches| && Finishes(patches[i]) }

  predicate Empty(p: Patch) { p.columns == map[] && p.inFlight.None? }

  function Next(s: Sys, step: Step): Sys {
    match step
    case Issue(p) => if Empty(p) || Closed(s.patches) then s else s.(patches := s.patches + [p])
    case Deliver(n) => if n <= |s.patches| then s.(row := Persisted(s.row, Write(n, Snapshot(s.patches, n)))) else s
    case SweepRead(now) => if Stale(s.row, now) then s.(seen := s.seen + [s.row]) else s
    case SweepWrite(k, last, now) => if k < |s.seen| then s.(row := Swept(s.row, s.seen[k], last, now)) else s
  }

  function After(base: Row, steps: seq<Step>): Sys {
    if steps == [] then Sys([], base, []) else Next(After(base, steps[..|steps| - 1]), steps[|steps| - 1])
  }

  /** The highest revision that has reached the database, read off the steps alone. */
  function Highest(base: Row, steps: seq<Step>): nat {
    if steps == [] then 0
    else
      var h, step := Highest(base, steps[..|steps| - 1]), steps[|steps| - 1];
      if step.Deliver? && h < step.revision <= |After(base, steps[..|steps| - 1]).patches| then step.revision else h
  }

  /** The last step is a sweep that found the row as it had read it. */
  predicate SweepTakes(base: Row, steps: seq<Step>) {
    && steps != [] && steps[|steps| - 1].SweepWrite?
    && var s, k := After(base, steps[..|steps| - 1]), steps[|steps| - 1].reader;
       k < |s.seen| && s.row.inFlight && s.row.revision == s.seen[k].revision
  }

  ghost predicate SweptWithin(base: Row, steps: seq<Step>) {
    exists k :: 0 <= k <= |steps| && SweepTakes(base, steps[..k])
  }

  /** The row as the first `n` updates make it. */
  function AtRevision(base: Row, patches: seq<Patch>, n: nat): Row
    requires n <= |patches|
  {
    if n == 0 then base else Updated(base, Snapshot(patches, n), n)
  }

  predicate Fresh(base: Row) { base.inFlight && base.revision == 0 }

  // ------------------------------------------------------------ one step at a time

  /** Only the last update can be final. */
  predicate OnlyLastFinishes(patches: seq<Patch>) {
    forall i :: 0 <= i < |patches| - 1 ==> !Finishes(patches[i])
  }

  lemma {:induction false} SnapshotFinishes(patches: seq<Patch>, n: nat)
    requires OnlyLastFinishes(patches) && n <= |patches|
    ensures Finishes(Snapshot(patches, n)) <==> n == |patches| && Closed(patches)
  {
    if n > 0 {
      SnapshotFinishes(patches, n - 1);
      if Finishes(patches[n - 1]) {
        assert n == |patches|;
      } else if n == |patches| {
        assert !Closed(patches);
      }
    }
  }

  lemma RevisionsStay(base: Row, patches: seq<Patch>, p: Patch, n: nat)
    requires n <= |patches|
    ensures AtRevision(base, patches + [p], n) == AtRevision(base, patches, n)
  {
    assert (patches + [p])[..n] == patches[..n];
    SnapshotDepends(patches + [p], patches, n);
  }

  /** A row in flight is the cumulative snapshot of its revision, and so is every row a sweeper read. */
  ghost predicate Sound(base: Row, s: Sys) {
    && OnlyLastFinishes(s.patches)
    && s.row.revision <= |s.patches|
    && (s.row.inFlight ==> s.row == AtRevision(base, s.patches, s.row.revision))
    && (forall k :: 0 <= k < |s.seen| ==> SeenSound(base, s.patches, s.seen[k]))
  }

  predicate SeenSound(base: Row, patches: seq<Patch>, r: Row) {
    r.inFlight && r.revision <= |patches| && r == AtRevision(base, patches, r.revision)
  }

  lemma StepIsSound(base: Row, s: Sys, step: Step)
    requires Fresh(base) && Sound(base, s)
    ensures Sound(base, Next(s, step))
  {
    hide SweepPatch, Snapshot;
    if step.Issue? {
      var p := step.patch;
      if !Empty(p) && !Closed(s.patches) {
        RevisionsStay(base, s.patches, p, s.row.revision);
        forall k | 0 <= k < |s.seen| ensures SeenSound(base, s.patches + [p], s.seen[k]) {
          RevisionsStay(base, s.patches, p, s.seen[k].revision);
        }
      }
    } else if step.Deliver? {
      if step.revision <= |s.patches| && Takes(s.row, Write(step.revision, Snapshot(s.patches, step.revision))) {
        DeliveryRewrites(base, s.patches, s.row.revision, step.revision);
      }
    } else if step.SweepWrite? {
      SweepEnds(s.row.createdAt, s.row.columns, step.last, step.now);
      if step.reader < |s.seen| {
        SweepEnds(s.seen[step.reader].createdAt, s.row.columns, step.last, step.now);
      }
    }
  }

  lemma SweepEnds(createdAt: nat, columns: Columns, last: Option<LastAttempt>, now: nat)
    ensures Finishes(SweepPatch(createdAt, columns, last, now))
  {
    hide AttemptColumns;
  }

  /** Each snapshot contains the earlier ones, so writing it over an earlier revision gives the
      row it describes. */
  lemma DeliveryRewrites(base: Row, patches: seq<Patch>, m: nat, n: nat)
    requires m < n <= |patches| && OnlyLastFinishes(patches) && Fresh(base)
    ensures Updated(AtRevision(base, patches, m), Snapshot(patches, n), n) == AtRevision(base, patches, n)
  {
    SnapshotGrows(patches, m, n);
    SnapshotFinishes(patches, m);
    SnapshotFinishes(patches, n);
    hide Snapshot;
    var a, b := Snapshot(patches, m), Snapshot(patches, n);
    assert base.columns + a.columns + b.columns == base.columns + b.columns;
  }

  lemma {:induction false} SnapshotGrows(patches: seq<Patch>, m: nat, n: nat)
    requires m <= n <= |patches|
    ensures Snapshot(patches, m).columns.Keys <= Snapshot(patches, n).columns.Keys
    ensures Snapshot(patches, m).inFlight.Some? ==> Snapshot(patches, n).inFlight.Some?
    decreases n - m
  {
    if m < n {
      SnapshotGrows(patches, m, n - 1);
    }
  }

  lemma {:induction false} RunIsSound(base: Row, steps: seq<Step>)
    requires Fresh(base)
    ensures Sound(base, After(base, steps))
  {
    if steps != [] {
      RunIsSound(base, steps[..|steps| - 1]);
      StepIsSound(base, After(base, steps[..|steps| - 1]), steps[|steps| - 1]);
    }
  }

  // ------------------------------------------------------------------ whole runs

  /** Once a row is terminal, no write and no sweep changes it. */
  lemma {:induction false} TerminalRowsAreFrozen(base: Row, steps: seq<Step>, k: nat)
    requires k <= |steps| && !After(base, steps[..k]).row.inFlight
    ensures After(base, steps).row == After(base, steps[..k]).row
    decreases |steps|
  {
    hide Updated, Snapshot, SweepPatch;
    if k < |steps| {
      assert steps[..|steps| - 1][..k] == steps[..k];
      TerminalRowsAreFrozen(base, steps[..|steps| - 1], k);
    } else {
      assert steps[..k] == steps;
    }
  }

  lemma SweptWithinGrows(base: Row, steps: seq<Step>)
    requires steps != []
    ensures SweptWithin(base, steps) <==> SweptWithin(base, steps[..|steps| - 1]) || SweepTakes(base, steps)
  {
    hide SweepTakes;
    var prefix := steps[..|steps| - 1];
    assert steps[..|steps|] == steps;
    assert forall k :: 0 <= k <= |prefix| ==> prefix[..k] == steps[..k];
    if SweptWithin(base, prefix) {
      var k :| 0 <= k <= |prefix| && SweepTakes(base, prefix[..k]);
      assert SweepTakes(base, steps[..k]);
    }
    if SweepTakes(base, steps) {
      assert SweepTakes(base, steps[..|steps|]);
    }
  }

  /** For any reordering, repetition and loss of writes, the row is the snapshot of the highest
      revision delivered, as long as no sweep took it; a swept row is terminal. */
  lemma {:induction false} RowIsHighestSnapshot(base: Row, steps: seq<Step>)
    requires Fresh(base)
    ensures Highest(base, steps) <= |After(base, steps).patches|
    ensures !SweptWithin(base, steps) ==>
              After(base, steps).row == AtRevision(base, After(base, steps).patches, Highest(base, steps))
    ensures SweptWithin(base, steps) ==> !After(base, steps).row.inFlight
  {
    if steps == [] {
      assert forall k :: 0 <= k <= |steps| ==> steps[..k] == [];
    } else {
      var prefix := steps[..|steps| - 1];
      RowIsHighestSnapshot(base, prefix);
      RunIsSound(base, prefix);
      SweptWithinGrows(base, steps);
      LastStepKeepsHighest(base, steps);
    }
  }

  lemma LastStepKeepsHighest(base: Row, steps: seq<Step>)
    requires Fresh(base) && steps != [] && Sound(base, After(base, steps[..|steps| - 1]))
    requires var prefix := steps[..|steps| - 1];
             && Highest(base, prefix) <= |After(base, prefix).patches|
             && (!SweptWithin(base, prefix) ==>
                   After(base, prefix).row == AtRevision(base, After(base, prefix).patches, Highest(base, prefix)))
             && (SweptWithin(base, prefix) ==> !After(base, prefix).row.inFlight)
    ensures Highest(base, steps) <= |After(base, steps).patches|
    ensures SweepTakes(base, steps) || SweptWithin(base, steps[..|steps| - 1]) ==> !After(base, steps).row.inFlight
    ensures !SweepTakes(base, steps) && !SweptWithin(base, steps[..|steps| - 1]) ==>
              After(base, steps).row == AtRevision(base, After(base, steps).patches, Highest(base, steps))
  {
    hide SweptWithin, Snapshot, SweepPatch;
    var prefix, step := steps[..|steps| - 1], steps[|steps| - 1];
    var s, h := After(base, prefix), Highest(base, prefix);
    if step.Issue? {
      RevisionsStay(base, s.patches, step.patch, h);
    } else if step.Deliver? {
      if h < step.revision <= |s.patches| {
        DeliveryRewrites(base, s.patches, h, step.revision);
        SnapshotFinishes(s.patches, h);
      }
    } else if step.SweepWrite? && step.reader < |s.seen| {
      SweepEnds(s.seen[step.reader].createdAt, s.row.columns, step.last, step.now);
    }
  }

  /** The final write has been issued and has reached the database. */
  predicate FinalDelivered(base: Row, steps: seq<Step>) {
    Closed(After(base, steps).patches) && Highest(base, steps) == |After(base, steps).patches|
  }

  /** A row is terminal exactly when a sweep took it or the final write arrived; and a sweep only
      takes rows that neither the final write nor another sweep has made terminal. */
  lemma OneTerminalWriter(base: Row, steps: seq<Step>)
    requires Fresh(base)
    ensures !After(base, steps).row.inFlight <==> SweptWithin(base, steps) || FinalDelivered(base, steps)
    ensures forall k :: 0 < k <= |steps| && SweepTakes(base, steps[..k]) ==>
              !SweptWithin(base, steps[..k - 1]) && !FinalDelivered(base, steps[..k - 1])
  {
    TerminalExactlyWhen(base, steps);
    hide After, Highest, SweptWithin, FinalDelivered;
    forall k | 0 < k <= |steps| && SweepTakes(base, steps[..k])
      ensures !SweptWithin(base, steps[..k - 1]) && !FinalDelivered(base, steps[..k - 1])
    {
      TakenRowsAreInFlight(base, steps, k);
      TerminalExactlyWhen(base, steps[..k - 1]);
    }
  }

  lemma TakenRowsAreInFlight(base: Row, steps: seq<Step>, k: nat)
    requires 0 < k <= |steps| && SweepTakes(base, steps[..k])
    ensures After(base, steps[..k - 1]).row.inFlight
  {
    hide After;
    assert steps[..k][..k - 1] == steps[..k - 1];
  }

  lemma TerminalExactlyWhen(base: Row, steps: seq<Step>)
    requires Fresh(base)
    ensures !After(base, steps).row.inFlight <==> SweptWithin(base, steps) || FinalDelivered(base, steps)
  {
    hide After, Highest, SweptWithin, Snapshot;
    RowIsHighestSnapshot(base, steps);
    RunIsSound(base, steps);
    SnapshotFinishes(After(base, steps).patches, Highest(base, steps));
    if FinalDelivered(base, steps) && SweptWithin(base, steps) {
      assert !After(base, steps).row.inFlight;
    }
  }

  /** A sweep that takes a row finds exactly the row it read. */
  lemma SweepFindsWhatItRead(base: Row, steps: seq<Step>)
    requires Fresh(base) && SweepTakes(base, steps)
    ensures var s := After(base, steps[..|steps| - 1]); s.row == s.seen[steps[|steps| - 1].reader]
  {
    hide After;
    RunIsSound(base, steps[..|steps| - 1]);
    var s := After(base, steps[..|steps| - 1]);
    assert SeenSound(base, s.patches, s.seen[steps[|steps| - 1].reader]);
  }

  /** The final write always leaves a terminal row: its "did not take effect" error never occurs. */
  lemma FinalWriteTakesEffect(base: Row, steps: seq<Step>)
    requires Fresh(base) && Closed(After(base, steps).patches)
    ensures var s := After(base, steps); var n := |s.patches|;
            Finishes(Snapshot(s.patches, n)) && !Persisted(s.row, Write(n, Snapshot(s.patches, n))).inFlight
  {
    hide After, Snapshot;
    RunIsSound(base, steps);
    var s := After(base, steps);
    SnapshotFinishes(s.patches, |s.patches|);
    SnapshotFinishes(s.patches, s.row.revision);
  }

  ghost predicate ReadWhenStale(base: Row, steps: seq<Step>) {
    exists i :: 0 <= i < |steps| && steps[i].SweepRead? && base.createdAt + STALE_MS < steps[i].now
  }

  lemma {:induction false} ReadersSawStaleRows(base: Row, steps: seq<Step>)
    ensures After(base, steps).row.createdAt == base.createdAt
    ensures After(base, steps).seen != [] ==> ReadWhenStale(base, steps)
  {
    hide Snapshot, SweepPatch;
    if steps != [] {
      var n := |steps| - 1;
      ReadersSawStaleRows(base, steps[..n]);
      assert steps == steps[..n] + [steps[n]];
      if ReadWhenStale(base, steps[..n]) {
        var i :| 0 <= i < n && steps[..n][i].SweepRead? && base.createdAt + STALE_MS < steps[..n][i].now;
        assert steps[i] == steps[..n][i];
      }
    }
  }

  /** A sweep finalizes only rows that were read past the age limit. */
  lemma OnlyStaleRowsAreSwept(base: Row, steps: seq<Step>)
    requires SweepTakes(base, steps)
    ensures ReadWhenStale(base, steps[..|steps| - 1])
  {
    ReadersSawStaleRows(base, steps[..|steps| - 1]);
  }

  // ------------------------------------------------------------- what the sweep leaves

  /** A column as the sweep found it. */
  predicate SameColumn(before: Columns, after: Columns, name: string) {
    (name in after <==> name in before) && (name in before ==> after[name] == before[name])
  }

  predicate Reads(columns: Columns, name: string, value: Value) { name in columns && columns[name] == value }

  /** A sweep finishes a row exactly when it is still the row in flight that it read. It then says what the
      last attempt said, when that succeeded, and otherwise that the request was left behind; it
      touches no other column and no revision. */
  lemma SweepLaw(row: Row, seen: Row, last: Option<LastAttempt>, now: nat, other: string)
    ensures var after := Swept(row, seen, last, now);
            var won := last.Some? && last.value.success;
            if !(row.inFlight && row.revision == seen.revision) then after == row
            else
              && !after.inFlight && after.revision == row.revision && after.createdAt == row.createdAt
              && Reads(after.columns, "success", Flag(won))
              && Reads(after.columns, "error_message", Text(if won then "" else "stale in-flight request"))
              && Reads(after.columns, "completed_at", Num(if won then last.value.completedAt else now))
              && (won ==> LikeAttempt(seen.createdAt, after.columns, last.value))
              && (!won ==> Reads(after.columns, "duration_ms", Num(360000)))
              && (!won && other !in ["success", "error_message", "completed_at", "duration_ms", "ttft_status"] ==>
                    SameColumn(row.columns, after.columns, other))
  {
    if last.Some? && last.value.success && row.inFlight && row.revision == seen.revision {
      AttemptWins(row, seen, last.value, now);
    }
    hide AttemptColumns;
  }

  /** The row tells of the attempt: its key, status and usage, and times counted from the request's start. */
  predicate LikeAttempt(createdAt: nat, columns: Columns, a: LastAttempt) {
    && Reads(columns, "success", Flag(true)) && Reads(columns, "error_message", Text(""))
    && Reads(columns, "completed_at", Num(a.completedAt))
    && Reads(columns, "platform_key_id", Num(a.keyId)) && Reads(columns, "status_code", Num(a.statusCode))
    && Reads(columns, "input_tokens", Num(a.inputTokens)) && Reads(columns, "output_tokens", Num(a.outputTokens))
    && Reads(columns, "cache_read_tokens", Num(a.cacheReadTokens))
    && Reads(columns, "cache_creation_tokens", Num(a.cacheCreationTokens))
    && Reads(columns, "ttft_status", Text(a.ttftStatus)) && Reads(columns, "ttft_event", Text(a.ttftEvent))
    && (a.completedAt >= createdAt ==> Reads(columns, "duration_ms", Num(a.completedAt - createdAt)))
    && (a.ttftMs > 0 && a.startedAt >= createdAt ==>
          Reads(columns, "ttft_ms", Num(a.startedAt - createdAt + a.ttftMs)))
  }

  lemma AttemptWins(row: Row, seen: Row, a: LastAttempt, now: nat)
    requires a.success && row.inFlight && row.revision == seen.revision
    ensures LikeAttempt(seen.createdAt, Swept(row, seen, Some(a), now).columns, a)
  {
    AttemptLikeItself(seen.createdAt, a);
    hide AttemptColumns, Measured;
    var mine := AttemptColumns(seen.createdAt, a);
    var after := Swept(row, seen, Some(a), now).columns;
    forall name | name in mine ensures name in after && after[name] == mine[name] {}
  }

  lemma AttemptLikeItself(createdAt: nat, a: LastAttempt)
    ensures LikeAttempt(createdAt, AttemptColumns(createdAt, a), a)
  {
  }
}
