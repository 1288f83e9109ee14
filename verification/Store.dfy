/** Stored bars (apps/api/quanta/services/market_store.py): a bar is rewritten until it closes. */
module Store {
  import opened Collections

  const MAX_BIND_PARAMETERS := 32_000

  /** A bar by its open time; `body` is its prices and volume. */
  datatype Bar = Bar(time: int, body: seq<real>, closed: bool)

  type Table = map<int, Bar>

  /** insert ... on conflict do update ... where not closed. */
  function Written(table: Table, bar: Bar): Table {
    if bar.time in table && table[bar.time].closed then table else table[bar.time := bar]
  }

  function Upserted(table: Table, bars: seq<Bar>): Table {
    if |bars| == 0 then table else Written(Upserted(table, bars[..|bars| - 1]), bars[|bars| - 1])
  }

  function ChunkSize(columns: int): (size: nat)
    ensures size >= 1
  {
    var size := MAX_BIND_PARAMETERS / (if columns > 1 then columns else 1);
    if size > 1 then size else 1
  }

  function Chunks<T>(rows: seq<T>, size: nat): seq<seq<T>>
    requires size >= 1
  {
    if |rows| == 0 then []
    else if |rows| <= size then [rows]
    else [rows[..size]] + Chunks(rows[size..], size)
  }

  /** Chunking loses, repeats and reorders nothing, and no statement binds more than the database allows. */
  lemma {:induction false} ChunksAreWhole<T>(rows: seq<T>, columns: int)
    requires 1 <= columns <= MAX_BIND_PARAMETERS
    ensures Concat(Chunks(rows, ChunkSize(columns))) == rows
    ensures forall c :: c in Chunks(rows, ChunkSize(columns)) ==> 0 < |c| && |c| * columns <= MAX_BIND_PARAMETERS
    decreases |rows|
  {
    var size := ChunkSize(columns);
    SizeFits(columns);
    if 0 < |rows| <= size {
      assert Chunks(rows, size)[1..] == [];
      assert rows + [] == rows;
      Times(|rows|, size, columns);
    } else if |rows| > size {
      ChunksAreWhole(rows[size..], columns);
      assert Chunks(rows, size)[1..] == Chunks(rows[size..], size);
      assert rows[..size] + rows[size..] == rows;
    }
  }

  /** The largest chunk whose parameters one statement may bind. */
  lemma ChunkSizeMeans(columns: int)
    requires 1 <= columns <= 32_000
    ensures ChunkSize(columns) * columns <= 32_000 < (ChunkSize(columns) + 1) * columns
  {
    var size := ChunkSize(columns);
    SizeFits(columns);
    assert size == 32_000 / columns;
    assert 32_000 == size * columns + 32_000 % columns;
  }

  lemma SizeFits(columns: int)
    requires 1 <= columns <= MAX_BIND_PARAMETERS
    ensures ChunkSize(columns) * columns <= MAX_BIND_PARAMETERS
  {
    Quotient(MAX_BIND_PARAMETERS, columns);
  }

  lemma Quotient(a: int, b: int)
    requires 1 <= b <= a
    ensures a / b >= 1 && a / b * b <= a
  {
  }

  lemma Times(a: nat, b: nat, c: nat)
    requires a <= b
    ensures a * c <= b * c
  {
    assert (b - a) * c >= 0;
  }

  /** Writes a list of bars, chunk by chunk. */
  method UpsertBars(table: Table, bars: seq<Bar>) returns (after: Table, written: nat)
    ensures after == Upserted(table, bars) && written == |bars|
  {
    var chunks := Chunks(bars, ChunkSize(11));
    ChunksAreWhole(bars, 11);
    assert chunks[0..] == chunks;
    after := table;
    for c := 0 to |chunks|
      invariant Upserted(table, bars) == Upserted(after, Concat(chunks[c..]))
    {
      assert chunks[c..][0] == chunks[c] && chunks[c..][1..] == chunks[c + 1..];
      UpsertedInParts(after, chunks[c], Concat(chunks[c + 1..]));
      after := Upserted(after, chunks[c]);
    }
    written := |bars|;
  }

  lemma {:induction false} UpsertedInParts(table: Table, a: seq<Bar>, b: seq<Bar>)
    ensures Upserted(table, a + b) == Upserted(Upserted(table, a), b)
  {
    if |b| == 0 {
      assert a + b == a;
    } else {
      assert (a + b)[..|a + b| - 1] == a + b[..|b| - 1];
      UpsertedInParts(table, a, b[..|b| - 1]);
    }
  }

  // --- what a table keeps ------------------------------------------------------------------

  /** Settled history is never reopened or changed, by any number of writes. */
  lemma {:induction false} ClosedStaysClosed(table: Table, bars: seq<Bar>, time: int)
    requires time in table && table[time].closed
    ensures time in Upserted(table, bars) && Upserted(table, bars)[time] == table[time]
  {
    if |bars| > 0 { ClosedStaysClosed(table, bars[..|bars| - 1], time); }
  }

  /** A bar not yet settled ends as the first closed version written to it. */
  lemma {:induction false} OpenTakesFirstClosed(table: Table, bars: seq<Bar>, k: nat)
    requires k < |bars| && bars[k].closed && !(bars[k].time in table && table[bars[k].time].closed)
    requires forall j :: 0 <= j < k ==> !(bars[j].time == bars[k].time && bars[j].closed)
    ensures bars[k].time in Upserted(table, bars) && Upserted(table, bars)[bars[k].time] == bars[k]
    decreases |bars|
  {
    var time, front := bars[k].time, bars[..|bars| - 1];
    if k == |bars| - 1 {
      StillOpen(table, front, time);
    } else {
      OpenTakesFirstClosed(table, front, k);
    }
  }

  lemma {:induction false} StillOpen(table: Table, bars: seq<Bar>, time: int)
    requires !(time in table && table[time].closed) && forall j :: 0 <= j < |bars| ==> !(bars[j].time == time && bars[j].closed)
    ensures !(time in Upserted(table, bars) && Upserted(table, bars)[time].closed)
  {
    if |bars| > 0 { StillOpen(table, bars[..|bars| - 1], time); }
  }

  /** Without a closed version it ends as the last one written. */
  lemma {:induction false} OpenTakesLastWritten(table: Table, bars: seq<Bar>, k: nat)
    requires k < |bars| && !(bars[k].time in table && table[bars[k].time].closed)
    requires forall j :: 0 <= j < |bars| ==> !(bars[j].time == bars[k].time && bars[j].closed)
    requires forall j :: k < j < |bars| ==> bars[j].time != bars[k].time
    ensures bars[k].time in Upserted(table, bars) && Upserted(table, bars)[bars[k].time] == bars[k]
    decreases |bars|
  {
    var time, front := bars[k].time, bars[..|bars| - 1];
    if k == |bars| - 1 {
      StillOpen(table, front, time);
    } else {
      OpenTakesLastWritten(table, front, k);
    }
  }

  /** Writing a list again changes nothing when each time in it appears once. */
  lemma RewriteChangesNothing(table: Table, bars: seq<Bar>)
    requires forall i, j :: 0 <= i < j < |bars| ==> bars[i].time != bars[j].time
    ensures Upserted(Upserted(table, bars), bars) == Upserted(table, bars)
  {
    var once := Upserted(table, bars);
    forall j | 0 <= j < |bars| ensures bars[j].time in once && (once[bars[j].time].closed || once[bars[j].time] == bars[j]) {
      Landed(table, bars, j);
    }
    Unmoved(once, bars);
  }

  lemma {:induction false} Landed(table: Table, bars: seq<Bar>, j: nat)
    requires j < |bars| && forall i, k :: 0 <= i < k < |bars| ==> bars[i].time != bars[k].time
    ensures bars[j].time in Upserted(table, bars)
    ensures Upserted(table, bars)[bars[j].time].closed || Upserted(table, bars)[bars[j].time] == bars[j]
  {
    if j < |bars| - 1 { Landed(table, bars[..|bars| - 1], j); }
  }

  lemma {:induction false} Unmoved(table: Table, bars: seq<Bar>)
    requires forall j :: 0 <= j < |bars| ==> bars[j].time in table && (table[bars[j].time].closed || table[bars[j].time] == bars[j])
    ensures Upserted(table, bars) == table
  {
    if |bars| > 0 {
      Unmoved(table, bars[..|bars| - 1]);
      assert table[bars[|bars| - 1].time := table[bars[|bars| - 1].time]] == table;
    }
  }
}
