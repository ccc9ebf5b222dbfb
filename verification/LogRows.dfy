/** Request log rows. The gateway numbers its writes and makes each one cumulative, so they may
    arrive in any order, more than once or not at all; a sweep finalizes rows left behind. */
module LogRows {
  import opened Wrappers

  datatype Value = Num(n: int) | Text(s: string) | Flag(b: bool)

  type Columns = map<string, Value>

  /** A set of column updates; `inFlight` is the column that makes a row terminal. */
  datatype Patch = Patch(columns: Columns, inFlight: Option<bool>)

  const NO_PATCH := Patch(map[], None)

  function Over(below: Patch, above: Patch): Patch {
    Patch(below.columns + above.columns, if above.inFlight.Some? then above.inFlight else below.inFlight)
  }

  datatype Row = Row(inFlight: bool, revision: nat, createdAt: nat, columns: Columns)

  function Updated(row: Row, p: Patch, revision: nat): Row {
    Row(if p.inFlight.Some? then p.inFlight.value else row.inFlight, revision, row.createdAt, row.columns + p.columns)
  }

  /** A numbered, cumulative write. */
  datatype Write = Write(revision: nat, snapshot: Patch)

  predicate Takes(row: Row, w: Write) { row.inFlight && row.revision < w.revision }

  function Persisted(row: Row, w: Write): Row { if Takes(row, w) then Updated(row, w.snapshot, w.revision) else row }

  // --------------------------------------------------------------------- the sweep

  const STALE_MS: nat := 6 * 60 * 1000

  datatype LastAttempt = LastAttempt(
    success: bool, startedAt: nat, completedAt: nat, statusCode: int, keyId: int, inputTokens: int, outputTokens: int,
    cacheReadTokens: int, cacheCreationTokens: int, ttftStatus: string, ttftEvent: string, ttftMs: int)

  /** A row in flight that is older than any request may run. */
  predicate Stale(row: Row, now: nat) { row.inFlight && row.createdAt + STALE_MS < now }

  predicate Measured(columns: Columns) {
    "ttft_ms" in columns && columns["ttft_ms"].Num? && columns["ttft_ms"].n > 0
  }

  function Max(a: int, b: int): int { if a < b then b else a }

  /** What the sweep takes over from a successful last attempt. */
  function AttemptColumns(createdAt: nat, a: LastAttempt): Columns {
    map["success" := Flag(true), "error_message" := Text(""), "failure_scope" := Text(""), "failure_action" := Text(""),
        "completed_at" := Num(a.completedAt), "status_code" := Num(a.statusCode),
        "duration_ms" := Num(Max(0, a.completedAt - createdAt)), "platform_key_id" := Num(a.keyId),
        "input_tokens" := Num(a.inputTokens), "output_tokens" := Num(a.outputTokens),
        "cache_read_tokens" := Num(a.cacheReadTokens), "cache_creation_tokens" := Num(a.cacheCreationTokens),
        "ttft_status" := Text(a.ttftStatus), "ttft_event" := Text(a.ttftEvent),
        "ttft_ms" := Num(if a.ttftMs > 0 then Max(1, a.startedAt - createdAt + a.ttftMs) else 0)]
  }

  /** What the sweep writes: a failure, unless the last attempt succeeded. */
  function SweepPatch(createdAt: nat, columns: Columns, last: Option<LastAttempt>, now: nat): Patch {
    var failed: Columns := map[
      "completed_at" := Num(now), "success" := Flag(false), "error_message" := Text("stale in-flight request"),
      "ttft_status" := Text(if Measured(columns) then "measured" else "interrupted"), "duration_ms" := Num(STALE_MS)];
    if last.Some? && last.value.success
    then Patch(failed + AttemptColumns(createdAt, last.value), Some(false)) else Patch(failed, Some(false))
  }

  /** The sweep writes only if the row is still the one it read. */
  function Swept(row: Row, seen: Row, last: Option<LastAttempt>, now: nat): Row {
    if row.inFlight && row.revision == seen.revision
    then Updated(row, SweepPatch(seen.createdAt, row.columns, last, now), row.revision) else row
  }

  // ------------------------------------------------------------------ the gateway's side

  /** A request's log while it runs. */
  class LiveLog {
    var revision: nat
    var closed: bool
    var updates: Patch
    ghost var patches: seq<Patch>  // every accepted update, in order

    ghost predicate Valid()
      reads this
    {
      && revision == |patches| && updates == Snapshot(patches, revision)
      && closed == (exists i :: 0 <= i < |patches| && Finishes(patches[i]))
    }

    constructor ()
      ensures Valid() && patches == [] && !closed
    {
      revision, closed, updates, patches := 0, false, NO_PATCH, [];
    }

    /** Numbers an update and issues it together with everything before it; a log whose final
        update was issued issues nothing more. */
    method WriteLog(patch: Patch, final: bool) returns (w: Option<Write>)
      requires Valid() && final == Finishes(patch)
      modifies this
      ensures Valid()
      ensures w.None? <==> (patch.columns == map[] && patch.inFlight.None?) || old(closed)
      ensures w.None? ==> patches == old(patches)
      ensures w.Some? ==>
                && patches == old(patches) + [patch] && closed == final
                && w.value == Write(|patches|, Snapshot(patches, |patches|))
    {
      if patch.columns == map[] && patch.inFlight.None? {
        return None;
      }
      if closed {
        return None;
      }
      closed := final;
      revision := revision + 1;
      ghost var before := patches;
      patches := patches + [patch];
      assert patches[|patches| - 1] == patch;
      SnapshotDepends(before, patches, |before|);
      updates := MergeInto(updates, patch);
      w := Some(Write(revision, updates));
    }
  }

  /** Copies one patch over another, column by column. */
  method MergeInto(below: Patch, above: Patch) returns (merged: Patch)
    ensures merged == Over(below, above)
  {
    merged := below;
    var todo := above.columns.Keys;
    while todo != {}
      invariant todo <= above.columns.Keys && merged.inFlight == below.inFlight
      invariant merged.columns.Keys == below.columns.Keys + (above.columns.Keys - todo)
      invariant forall k :: k in merged.columns ==>
                  merged.columns[k] == if k in above.columns && k !in todo then above.columns[k] else below.columns[k]
    {
      var k :| k in todo;
      merged := merged.(columns := merged.columns[k := above.columns[k]]);
      todo := todo - {k};
    }
    if above.inFlight.Some? {
      merged := merged.(inFlight := above.inFlight);
    }
    assert merged.columns == below.columns + above.columns;
  }

  predicate Finishes(p: Patch) { p.inFlight == Some(false) }

  /** Everything the first `n` updates say, later ones over earlier ones. */
  function Snapshot(patches: seq<Patch>, n: nat): Patch
    requires n <= |patches|
  {
    if n == 0 then NO_PATCH else Over(Snapshot(patches, n - 1), patches[n - 1])
  }

  lemma {:induction false} SnapshotDepends(a: seq<Patch>, b: seq<Patch>, n: nat)
    requires n <= |a| && n <= |b| && a[..n] == b[..n]
    ensures Snapshot(a, n) == Snapshot(b, n)
  {
    if n > 0 {
      assert a[n - 1] == a[..n][n - 1] && b[n - 1] == b[..n][n - 1];
      assert a[..n - 1] == a[..n][..n - 1] && b[..n - 1] == b[..n][..n - 1];
      SnapshotDepends(a, b, n - 1);
    }
  }

  // -------------------------------------------------------------- the database's side

  class LogTable {
    var row: Row

    constructor (row: Row)
      ensures this.row == row
    {
      this.row := row;
    }

    /** One conditional update. It reports an error when the storage fails, or when a final
        update finds a row that is still in flight and yet refuses it. */
    method PersistLog(w: Write, fault: bool) returns (ok: bool)
      modifies this
      ensures row == if fault then old(row) else Persisted(old(row), w)
      ensures ok <==> !fault && !(Finishes(w.snapshot) && row.inFlight)
    {
      if fault {
        return false;
      }
      var affected := row.inFlight && row.revision < w.revision;
      if affected {
        row := Updated(row, w.snapshot, w.revision);
      }
      if w.snapshot.inFlight == Some(false) && !affected {
        return !row.inFlight;
      }
      ok := true;
    }

    /** A final write is tried up to three times, any other once. */
    method Persist(w: Write, final: bool, faults: nat -> bool) returns (ok: bool)
      modifies this
      ensures row == old(row) || row == Persisted(old(row), w)
      ensures (exists i: nat :: i < (if final then 3 else 1) && !faults(i)) ==> row == Persisted(old(row), w)
      ensures ok ==> row == Persisted(old(row), w)
    {
      var attempt := 0;
      ok := false;
      while attempt < 3
        invariant 0 <= attempt <= 3 && (attempt > 0 ==> final)
        invariant row == old(row) || row == Persisted(old(row), w)
        invariant ok ==> row == Persisted(old(row), w)
        invariant (exists i: nat :: i < attempt && !faults(i)) ==> row == Persisted(old(row), w)
      {
        ok := PersistLog(w, faults(attempt));
        if ok || !final {
          break;
        }
        attempt := attempt + 1;
      }
    }

    /** The second half of a sweep: the row was read as `seen` some time before. */
    method FinalizeStale(seen: Row, last: Option<LastAttempt>, now: nat) returns (count: nat)
      modifies this
      ensures row == Swept(old(row), seen, last, now)
      ensures count == if old(row).inFlight && old(row).revision == seen.revision then 1 else 0
    {
      hide AttemptColumns;
      var updates: Columns := map[
        "completed_at" := Num(now), "success" := Flag(false), "error_message" := Text("stale in-flight request"),
        "ttft_status" := Text(if Measured(row.columns) then "measured" else "interrupted"),
        "duration_ms" := Num(STALE_MS)];
      if last.Some? && last.value.success {
        updates := updates + AttemptColumns(seen.createdAt, last.value);
      }
      count := 0;
      if row.inFlight && row.revision == seen.revision {
        row := Updated(row, Patch(updates, Some(false)), row.revision);
        count := 1;
      }
    }
  }
}
