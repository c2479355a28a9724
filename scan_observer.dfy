/**
 * `ThemisScanObserver`: the region observer that answers a Themis snapshot
 * scan. Opening a scan whose attributes carry a start timestamp replaces the
 * ordinary region scanner with a `ThemisServerScanner` over the lock and
 * write cells of the snapshot; advancing such a scanner emits, per row, the
 * raw lock cells when the row is locked, or else the data cells its PUT
 * write records point to.
 */
module ScanObserver {
  import opened Common
  import opened CpUtil

  /** `ThemisScanObserver.TRANSACTION_START_TS`. */
  const TransactionStartTs: string := "_themisTransationStartTs_"

  /** One pull from the internal scanner: one row's cells and whether more rows follow. */
  datatype Batch = Batch(values: seq<Cell>, moreRows: bool)

  /**
   * A `ThemisServerScanner`: the internal scanner over lock and write cells,
   * given as the finite sequence of pulls it will answer, with a cursor; and
   * the user's filter, applied to the data cells.
   */
  class ThemisServerScanner {
    const batches: seq<Batch>
    const dataColumnFilter: Cell -> bool
    var pos: nat

    ghost predicate Valid()
      reads this
    {
      pos <= |batches|
    }

    /** The pulls not yet made. */
    ghost function Remaining(): (rest: seq<Batch>)
      reads this
      requires Valid()
      ensures |rest| == |batches| - pos
    {
      batches[pos..]
    }

    constructor (batches: seq<Batch>, dataColumnFilter: Cell -> bool)
      ensures Valid()
      ensures this.batches == batches && this.dataColumnFilter == dataColumnFilter
      ensures pos == 0 && Remaining() == batches
    {
      this.batches := batches;
      this.dataColumnFilter := dataColumnFilter;
      pos := 0;
    }

    /**
     * `InternalScanner.next`: the next row's cells and whether more rows
     * follow; an exhausted scanner answers no cells and no more rows.
     */
    method Pull() returns (values: seq<Cell>, moreRows: bool)
      requires Valid()
      modifies this
      ensures Valid()
      ensures old(pos) < |batches| ==>
        pos == old(pos) + 1 && values == batches[old(pos)].values && moreRows == batches[old(pos)].moreRows
      ensures old(pos) == |batches| ==> pos == old(pos) && values == [] && !moreRows
    {
      if pos < |batches| {
        values, moreRows := batches[pos].values, batches[pos].moreRows;
        pos := pos + 1;
      } else {
        values, moreRows := [], false;
      }
    }
  }

  /** The `List<Result>` the caller passes in, to which rows are appended. */
  class ResultList {
    var items: seq<RowResult>

    constructor ()
      ensures items == []
    {
      items := [];
    }

    method Add(r: RowResult)
      modifies this
      ensures items == old(items) + [r]
    {
      items := items + [r];
    }
  }

  /**
   * What one non-empty pull contributes to the results: the lock cells if
   * the row is locked; otherwise the data its PUT write records point to,
   * unless there are no such records or the lookup finds nothing.
   */
  function ProcessRow(region: Region, filter: Cell -> bool, values: seq<Cell>): (r: Option<RowResult>)
    ensures r.Some? ==> r.value.cells != []
  {
    if values == [] then None
    else
      var (lockKvs, writeKvs) := SeparateLockAndWriteKvs(values);
      if |lockKvs| == 0 then
        var putKvs := GetPutKvs(writeKvs);
        if |putKvs| > 0 then
          var dataResult := RegionGet(region, ConstructDataGetByPutKvs(putKvs), filter);
          if dataResult != [] then Some(RowResult(dataResult)) else None
        else None
      else Some(RowResult(lockKvs))
  }

  function RowSeq(r: Option<RowResult>): (rows: seq<RowResult>)
    ensures |rows| <= 1
  {
    if r.Some? then [r.value] else []
  }

  /**
   * The reference definition of what a scan emits: every pull's
   * contribution, in scan order, ignoring the limit.
   */
  function Emitted(region: Region, filter: Cell -> bool, bs: seq<Batch>): seq<RowResult> {
    if bs == [] then []
    else RowSeq(ProcessRow(region, filter, bs[0].values)) + Emitted(region, filter, bs[1..])
  }

  /** The results one call of `next` appends, its return value, and how many pulls it made. */
  datatype Advanced = Advanced(rows: seq<RowResult>, more: bool, pulled: nat)

  /**
   * What `next` does with the pulls `bs` when it may still append `budget`
   * results: nothing when the budget is spent, and otherwise a pass of the
   * row loop.
   */
  function Advance(region: Region, filter: Cell -> bool, bs: seq<Batch>, budget: int): (o: Advanced)
    ensures o.pulled <= |bs|
    decreases |bs|, 2
  {
    if budget <= 0 then Advanced([], true, 0) else Pass(region, filter, bs, budget)
  }

  /** A pass of the row loop: `false` at once when the scanner is exhausted. */
  function Pass(region: Region, filter: Cell -> bool, bs: seq<Batch>, budget: int): (o: Advanced)
    ensures o.pulled <= |bs|
    decreases |bs|, 1
  {
    if bs == [] then Advanced([], false, 0) else PullRow(region, filter, bs, budget)
  }

  /**
   * One pass of the row loop: pull a row and process it, then stop with
   * `false` if the scanner reported no more rows, or go on with what is
   * left of the budget.
   */
  function PullRow(region: Region, filter: Cell -> bool, bs: seq<Batch>, budget: int): (o: Advanced)
    requires bs != []
    ensures 1 <= o.pulled <= |bs|
    decreases |bs|, 0
  {
    var emitted := RowSeq(ProcessRow(region, filter, bs[0].values));
    if !bs[0].moreRows then Advanced(emitted, false, 1)
    else
      Prepend(emitted, Advance(region, filter, bs[1..], budget - |emitted|))
  }

  /** The outcome of a pass that emitted `row` and went on to `rest`. */
  function Prepend(row: seq<RowResult>, rest: Advanced): (o: Advanced)
    ensures o.pulled == rest.pulled + 1 && |o.rows| == |row| + |rest.rows|
  {
    Advanced(row + rest.rows, rest.more, rest.pulled + 1)
  }

  /**
   * `ThemisScanObserver.next`: appends up to `limit` results for the rows
   * pulled from `s`, and returns whether the scanner may have more rows.
   */
  method Next(region: Region, s: ThemisServerScanner, results: ResultList, limit: int) returns (more: bool)
    requires s.Valid()
    modifies s, results
    ensures s.Valid()
    ensures var o := Advance(region, s.dataColumnFilter, old(s.Remaining()), limit);
      && results.items == old(results.items) + o.rows
      && more == o.more
      && s.pos == old(s.pos) + o.pulled
  {
    ghost var f := s.dataColumnFilter;
    ghost var total := Advance(region, f, s.Remaining(), limit);
    ghost var pos0 := s.pos;
    ghost var items0 := results.items;
    ghost var acc: seq<RowResult> := [];
    var i := 0;
    while i < limit
      invariant s.Valid() && s.pos >= pos0
      invariant 0 <= i == |acc|
      invariant results.items == items0 + acc
      invariant Tracks(region, f, total, acc, s.Remaining(), limit - i, s.pos - pos0)
      decreases |s.batches| - s.pos
    {
      ghost var rem, consumed, budget, acc0 := s.Remaining(), s.pos - pos0, limit - i, acc;
      var added, moreRows, row := NextRow(region, s, results, limit - i);
      acc := acc0 + row;
      if added {
        i := i + 1;
      }
      if !moreRows {
        TracksStop(region, f, total, acc0, rem, budget, consumed, row);
        return false;
      }
      TracksStep(region, f, total, acc0, rem, budget, consumed, row, s.Remaining(), limit - i);
    }
    TracksDone(region, f, total, acc, s.Remaining(), limit - i, s.pos - pos0);
    return true;
  }

  /**
   * One pass of the row loop of `ThemisScanObserver.next`: pulls the next
   * row from `s` and appends its result, if any. The pass is the first
   * step of `Advance`: the call's outcome is this pass's row followed, when
   * the scanner reported more rows, by the outcome of the passes after it.
   */
  method NextRow(region: Region, s: ThemisServerScanner, results: ResultList, budget: int)
    returns (added: bool, moreRows: bool, ghost row: seq<RowResult>)
    requires s.Valid() && budget > 0
    modifies s, results
    ensures s.Valid() && results.items == old(results.items) + row
    ensures |row| <= 1 && added == (|row| == 1)
    ensures old(s.pos) == |s.batches| ==> s.pos == old(s.pos) && row == [] && !moreRows
    ensures old(s.pos) < |s.batches| ==>
      && s.pos == old(s.pos) + 1
      && moreRows == s.batches[old(s.pos)].moreRows
      && FirstPass(region, s.dataColumnFilter, old(s.Remaining()), budget, row, moreRows, s.Remaining())
  {
    ghost var rem := s.Remaining();
    var values;
    values, moreRows := s.Pull();
    row := RowSeq(ProcessRow(region, s.dataColumnFilter, values));
    added := EmitRow(region, s.dataColumnFilter, values, results);
    if rem != [] {
      assert Pass(region, s.dataColumnFilter, rem, budget) == PullRow(region, s.dataColumnFilter, rem, budget);
      assert s.Remaining() == rem[1..];
    }
  }

  /**
   * The body of the row loop of `ThemisScanObserver.next` for one pulled
   * row: appends the row's lock cells, or the data its PUT write records
   * point to, and says whether a result was appended (and so counted).
   */
  method EmitRow(region: Region, filter: Cell -> bool, values: seq<Cell>, results: ResultList)
    returns (added: bool)
    modifies results
    ensures results.items == old(results.items) + RowSeq(ProcessRow(region, filter, values))
    ensures added == ProcessRow(region, filter, values).Some?
  {
    added := false;
    if values != [] {
      var (lockKvs, writeKvs) := SeparateLockAndWriteKvs(values);
      if |lockKvs| == 0 {
        var putKvs := GetPutKvs(writeKvs);
        if |putKvs| > 0 {
          var dataGet := ConstructDataGetByPutKvs(putKvs);
          var dataResult := RegionGet(region, dataGet, filter);
          if dataResult != [] {
            results.Add(RowResult(dataResult));
            added := true;
          }
        }
      } else {
        results.Add(RowResult(lockKvs));
        added := true;
      }
    }
  }

  /**
   * The loop invariant of `Next`: with `acc` appended after `consumed`
   * pulls, what remains to be done with the pulls `rem` and the budget
   * completes the whole call's outcome `total`.
   */
  ghost predicate Tracks(region: Region, f: Cell -> bool, total: Advanced, acc: seq<RowResult>,
                         rem: seq<Batch>, budget: int, consumed: nat)
  {
    var rest := Advance(region, f, rem, budget);
    total == Advanced(acc + rest.rows, rest.more, consumed + rest.pulled)
  }

  /**
   * The first pass over `rem` emits `row`; the outcome is `row` alone when
   * the scanner reported no more rows, and otherwise `row` followed by the
   * outcome of the passes over `rest` with what is left of the budget.
   */
  ghost predicate FirstPass(region: Region, f: Cell -> bool, rem: seq<Batch>, budget: int,
                            row: seq<RowResult>, moreRows: bool, rest: seq<Batch>)
  {
    Advance(region, f, rem, budget)
      == if moreRows then Prepend(row, Advance(region, f, rest, budget - |row|)) else Advanced(row, false, 1)
  }

  lemma TracksStep(region: Region, f: Cell -> bool, total: Advanced, acc: seq<RowResult>,
                   rem: seq<Batch>, budget: int, consumed: nat,
                   row: seq<RowResult>, rem': seq<Batch>, budget': int)
    requires Tracks(region, f, total, acc, rem, budget, consumed)
    requires budget' == budget - |row|
    requires FirstPass(region, f, rem, budget, row, true, rem')
    ensures Tracks(region, f, total, acc + row, rem', budget', consumed + 1)
  {
  }

  lemma TracksStop(region: Region, f: Cell -> bool, total: Advanced, acc: seq<RowResult>,
                   rem: seq<Batch>, budget: int, consumed: nat, row: seq<RowResult>)
    requires Tracks(region, f, total, acc, rem, budget, consumed)
    requires budget > 0
    requires rem == [] ==> row == []
    requires rem != [] ==> FirstPass(region, f, rem, budget, row, false, rem[1..])
    ensures total == Advanced(acc + row, false, consumed + if rem == [] then 0 else 1)
  {
    assert Advance(region, f, rem, budget) == Pass(region, f, rem, budget);
  }

  lemma TracksDone(region: Region, f: Cell -> bool, total: Advanced, acc: seq<RowResult>,
                   rem: seq<Batch>, budget: int, consumed: nat)
    requires Tracks(region, f, total, acc, rem, budget, consumed)
    requires budget <= 0
    ensures total == Advanced(acc, true, consumed)
  {
  }

  // ---------------------------------------------------------------------
  // What one call of `next` promises, proved of `Advance`.
  // ---------------------------------------------------------------------

  /** With budget left and a pull to make, `next` makes the pull. */
  lemma AdvancePulls(region: Region, filter: Cell -> bool, bs: seq<Batch>, budget: int)
    requires budget > 0 && bs != []
    ensures Advance(region, filter, bs, budget) == PullRow(region, filter, bs, budget)
  {
    assert Advance(region, filter, bs, budget) == Pass(region, filter, bs, budget);
  }

  /**
   * `next` appends at most `limit` results, and exactly `limit` when it
   * answers `true` after pulling; with `limit <= 0` it pulls nothing,
   * appends nothing and answers `true`.
   */
  lemma {:induction false} AdvanceAppendsAtMostLimit(region: Region, filter: Cell -> bool, bs: seq<Batch>, limit: int)
    ensures var o := Advance(region, filter, bs, limit);
      && (limit <= 0 ==> o == Advanced([], true, 0))
      && (limit > 0 ==> |o.rows| <= limit)
      && (limit > 0 && o.more ==> |o.rows| == limit)
  {
    if limit > 0 && bs != [] {
      AdvancePulls(region, filter, bs, limit);
    }
    if limit > 0 && bs != [] && bs[0].moreRows {
      var emitted := RowSeq(ProcessRow(region, filter, bs[0].values));
      AdvanceAppendsAtMostLimit(region, filter, bs[1..], limit - |emitted|);
    }
  }

  /**
   * `next` answers `false` at the first pull that reports no more rows (or
   * when the scanner is exhausted), and `true` only when every pull it made
   * reported more rows; it does answer `true` once `limit` results are
   * appended before any pull reported no more rows.
   */
  lemma {:induction false} AdvanceReturnValue(region: Region, filter: Cell -> bool, bs: seq<Batch>, limit: int)
    ensures var o := Advance(region, filter, bs, limit);
      && (forall j | 0 <= j < o.pulled - 1 :: bs[j].moreRows)
      && (o.more ==> forall j | 0 <= j < o.pulled :: bs[j].moreRows)
      && (!o.more ==> limit > 0 && (o.pulled == |bs| || (0 < o.pulled && !bs[o.pulled - 1].moreRows)))
      && (limit > 0 && |o.rows| == limit && (forall j | 0 <= j < o.pulled :: bs[j].moreRows) ==> o.more)
  {
    if limit > 0 && bs != [] {
      AdvancePulls(region, filter, bs, limit);
    }
    if limit > 0 && bs != [] && bs[0].moreRows {
      var emitted := RowSeq(ProcessRow(region, filter, bs[0].values));
      var rest := Advance(region, filter, bs[1..], limit - |emitted|);
      AdvanceReturnValue(region, filter, bs[1..], limit - |emitted|);
      AdvanceAppendsAtMostLimit(region, filter, bs[1..], limit - |emitted|);
      forall j | 1 <= j <= rest.pulled
        ensures bs[j] == bs[1..][j - 1]
      {
      }
    }
  }

  /**
   * The results `next` appends are exactly what the rows it pulled emit,
   * in the scanner's order: none is dropped, added or reordered.
   */
  lemma {:induction false} AdvanceEmitsInScanOrder(region: Region, filter: Cell -> bool, bs: seq<Batch>, limit: int)
    ensures var o := Advance(region, filter, bs, limit);
      o.rows == Emitted(region, filter, bs[..o.pulled])
  {
    var o := Advance(region, filter, bs, limit);
    if limit <= 0 || bs == [] {
      assert bs[..o.pulled] == [];
    } else {
      AdvancePulls(region, filter, bs, limit);
      var emitted := RowSeq(ProcessRow(region, filter, bs[0].values));
      var prefix := bs[..o.pulled];
      assert prefix[0] == bs[0];
      if !bs[0].moreRows {
        assert prefix[1..] == [];
      } else {
        var rest := Advance(region, filter, bs[1..], limit - |emitted|);
        AdvanceEmitsInScanOrder(region, filter, bs[1..], limit - |emitted|);
        assert prefix[1..] == bs[1..][..rest.pulled];
      }
    }
  }

  /**
   * `next` stops pulling as soon as `limit` results are appended: before
   * each pull it made, fewer than `limit` results had been emitted.
   */
  lemma {:induction false} AdvanceStopsAtLimit(region: Region, filter: Cell -> bool, bs: seq<Batch>, limit: int)
    ensures var o := Advance(region, filter, bs, limit);
      forall j | 0 <= j < o.pulled :: |Emitted(region, filter, bs[..j])| < limit
  {
    var o := Advance(region, filter, bs, limit);
    if limit > 0 && bs != [] {
      AdvancePulls(region, filter, bs, limit);
      var emitted := RowSeq(ProcessRow(region, filter, bs[0].values));
      assert bs[..0] == [];
      if bs[0].moreRows {
        var rest := Advance(region, filter, bs[1..], limit - |emitted|);
        AdvanceStopsAtLimit(region, filter, bs[1..], limit - |emitted|);
        forall j | 1 <= j < o.pulled
          ensures |Emitted(region, filter, bs[..j])| < limit
        {
          EmittedCons(region, filter, bs, j);
        }
      }
    }
  }

  /** The rows emitted by a non-empty prefix: its first pull's, then the rest's. */
  lemma EmittedCons(region: Region, filter: Cell -> bool, bs: seq<Batch>, j: nat)
    requires 1 <= j <= |bs|
    ensures Emitted(region, filter, bs[..j])
      == RowSeq(ProcessRow(region, filter, bs[0].values)) + Emitted(region, filter, bs[1..][..j - 1])
  {
    var prefix := bs[..j];
    assert prefix[0] == bs[0];
    assert prefix[1..] == bs[1..][..j - 1];
  }

  // ---------------------------------------------------------------------
  // What one row contributes.
  // ---------------------------------------------------------------------

  /** All cells of the batch that lie in one row. */
  predicate SameRow(values: seq<Cell>) {
    forall c | c in values :: c.row == values[0].row
  }

  /**
   * A pull that returns no cells emits nothing and does not count against
   * the limit: `next` goes on to the following pull with its whole budget,
   * or stops if the scanner reported no more rows.
   */
  lemma EmptyBatchIgnored(region: Region, filter: Cell -> bool, bs: seq<Batch>, budget: int)
    requires bs != [] && bs[0].values == []
    ensures Emitted(region, filter, bs) == Emitted(region, filter, bs[1..])
    ensures budget > 0 ==>
      Advance(region, filter, bs, budget) ==
        if bs[0].moreRows then Prepend([], Advance(region, filter, bs[1..], budget)) else Advanced([], false, 1)
  {
    if budget > 0 {
      AdvancePulls(region, filter, bs, budget);
    }
  }

  /**
   * A lock takes precedence over any write: a row holding a lock cell
   * emits exactly its lock cells, so no data lookup is made for it.
   */
  lemma LockedRowEmitsLocks(region: Region, filter: Cell -> bool, values: seq<Cell>)
    requires exists c :: c in values && IsLockCell(c)
    ensures var r := ProcessRow(region, filter, values);
      && r == Some(RowResult(Filter(values, IsLockCell)))
      && forall c :: c in r.value.cells <==> c in values && IsLockCell(c)
  {
    SeparateLockAndWriteKvsPartitions(values);
  }

  /** A row with no lock and no PUT write record (only deletes) is skipped. */
  lemma DeleteOnlyRowSkipped(region: Region, filter: Cell -> bool, values: seq<Cell>)
    requires forall c | c in values :: !IsLockCell(c) && !IsPutCell(c)
    ensures ProcessRow(region, filter, values) == None
  {
    var (lockKvs, writeKvs) := SeparateLockAndWriteKvs(values);
    SeparateLockAndWriteKvsPartitions(values);
  }

  /**
   * An unlocked row emits exactly the stored data cells that its PUT write
   * records point to and that pass the filter; when there are none, the
   * row is skipped.
   */
  lemma UnlockedRowEmitsPointedData(region: Region, filter: Cell -> bool, values: seq<Cell>)
    requires SameRow(values)
    requires forall c | c in values :: !IsLockCell(c)
    ensures var r := ProcessRow(region, filter, values);
      forall c :: (r.Some? && c in r.value.cells) <==>
        exists w :: w in values && IsPutCell(w) && Lookup(region, w.row, PointedColumn(w)) == Some(c) && filter(c)
  {
    var r := ProcessRow(region, filter, values);
    if values == [] {
      return;
    }
    var (lockKvs, writeKvs) := SeparateLockAndWriteKvs(values);
    SeparateLockAndWriteKvsPartitions(values);
    var putKvs := GetPutKvs(writeKvs);
    if putKvs != [] {
      var get := ConstructDataGetByPutKvs(putKvs);
      DataGetPointsToPuts(putKvs);
      assert putKvs[0] in values;
      assert get.row == values[0].row;
      forall c
        ensures (r.Some? && c in r.value.cells) <==>
          exists w :: w in values && IsPutCell(w) && Lookup(region, w.row, PointedColumn(w)) == Some(c) && filter(c)
      {
        if r.Some? && c in r.value.cells {
          var col :| col in get.columns && Lookup(region, get.row, col) == Some(c) && filter(c);
          var w :| w in putKvs && col == PointedColumn(w);
          assert w in values && IsPutCell(w) && Lookup(region, w.row, PointedColumn(w)) == Some(c);
        }
        if exists w :: w in values && IsPutCell(w) && Lookup(region, w.row, PointedColumn(w)) == Some(c) && filter(c) {
          var w :| w in values && IsPutCell(w) && Lookup(region, w.row, PointedColumn(w)) == Some(c) && filter(c);
          assert w in putKvs;
          assert PointedColumn(w) in get.columns;
        }
      }
    }
  }

  /**
   * A committed PUT at 10 that points to start timestamp 5 reads the data
   * stored at 5, when the scan's filter lets it through.
   */
  lemma RowReadsPointedData(filter: Cell -> bool)
    requires filter(Cell("r1", "cf", "q", 5, Raw(['x' as bv8])))
    ensures var region := Region(map[Coordinate("r1", "cf", "q", 5) := ['x' as bv8]], {"cf"});
      var write := Cell("r1", "cf", "q", 10, WriteRecord(Put, 5));
      ProcessRow(region, filter, [write]) == Some(RowResult([Cell("r1", "cf", "q", 5, Raw(['x' as bv8]))]))
  {
    var region := Region(map[Coordinate("r1", "cf", "q", 5) := ['x' as bv8]], {"cf"});
    var write := Cell("r1", "cf", "q", 10, WriteRecord(Put, 5));
    var data := Cell("r1", "cf", "q", 5, Raw(['x' as bv8]));
    assert Filter([write], IsLockCell) == [];
    assert Filter([write], IsWriteCell) == [write];
    assert GetPutKvs([write]) == [write];
    var get := ConstructDataGetByPutKvs([write]);
    assert get == DataGet("r1", [Column("cf", "q", 5)]);
    assert Lookup(region, "r1", Column("cf", "q", 5)) == Some(data);
    assert LookupAll(region, "r1", get.columns[1..], filter) == [];
    assert RegionGet(region, get, filter) == [data];
  }

  /** A row holding a lock at 8 and an older PUT at 3 emits the lock, not the data. */
  lemma LockedRowReportsConflict(region: Region, filter: Cell -> bool)
    ensures var lock := Cell("r2", LockFamilyName, "cf#q", 8, Raw([]));
      var write := Cell("r2", "cf", "q", 3, WriteRecord(Put, 2));
      ProcessRow(region, filter, [lock, write]) == Some(RowResult([lock]))
  {
    var lock := Cell("r2", LockFamilyName, "cf#q", 8, Raw([]));
    var write := Cell("r2", "cf", "q", 3, WriteRecord(Put, 2));
    assert Filter([lock, write], IsLockCell) == [lock] by {
      assert [lock, write][1..] == [write];
    }
  }

  // ---------------------------------------------------------------------
  // Opening and advancing scanners.
  // ---------------------------------------------------------------------

  /** The part of a `Scan` the observer reads. */
  datatype Scan = Scan(attributes: map<string, int>, families: seq<string>, filter: Cell -> bool)

  /** A region scanner: an ordinary one, or a Themis scanner. */
  datatype RegionScanner = PlainScanner(id: nat) | ThemisScanner(scanner: ThemisServerScanner)

  /** The only failure modelled when opening: a family not configured for Themis. */
  datatype ScanError = FamilyNotThemis(family: string)

  /**
   * `ThemisScanObserver.getStartTsFromAttribute`: the snapshot timestamp of
   * a Themis scan, or none for an ordinary scan.
   */
  function GetStartTsFromAttribute(scan: Scan): (ts: Option<int>)
    ensures ts.None? <==> TransactionStartTs !in scan.attributes
    ensures ts.Some? ==> ts.value == scan.attributes[TransactionStartTs]
  {
    if TransactionStartTs in scan.attributes then Some(scan.attributes[TransactionStartTs]) else None
  }

  /**
   * Stands for `ThemisProtocolImpl.checkFamily`: the first requested family
   * that the region's table does not configure for Themis.
   */
  function CheckFamily(region: Region, families: seq<string>): (bad: Option<string>)
    ensures bad.None? <==> forall f | f in families :: f in region.themisFamilies
    ensures bad.Some? ==> bad.value in families && bad.value !in region.themisFamilies
  {
    if families == [] then None
    else if families[0] !in region.themisFamilies then Some(families[0])
    else CheckFamily(region, families[1..])
  }

  /**
   * `ThemisScanObserver.preScannerOpen`: a scan without a start timestamp
   * keeps the scanner the region opened; a Themis scan gets a fresh
   * `ThemisServerScanner` over `internalBatches`, the pulls the region's
   * scanner over the snapshot's lock and write cells will answer.
   */
  method PreScannerOpen(region: Region, scan: Scan, s: RegionScanner, internalBatches: seq<Batch>)
    returns (r: Result<RegionScanner, ScanError>)
    ensures GetStartTsFromAttribute(scan).None? ==> r == Ok(s)
    ensures GetStartTsFromAttribute(scan).Some? && CheckFamily(region, scan.families).Some? ==>
      r == Err(FamilyNotThemis(CheckFamily(region, scan.families).value))
    ensures GetStartTsFromAttribute(scan).Some? && CheckFamily(region, scan.families).None? ==>
      && r.Ok? && r.value.ThemisScanner?
      && fresh(r.value.scanner) && r.value.scanner.Valid()
      && r.value.scanner.Remaining() == internalBatches
      && r.value.scanner.dataColumnFilter == scan.filter
  {
    var themisStartTs := GetStartTsFromAttribute(scan);
    if themisStartTs.Some? {
      var bad := CheckFamily(region, scan.families);
      if bad.Some? {
        return Err(FamilyNotThemis(bad.value));
      }
      var pScanner := new ThemisServerScanner(internalBatches, scan.filter);
      return Ok(ThemisScanner(pScanner));
    }
    return Ok(s);
  }

  /** The objects advancing `s` may change. */
  function Footprint(s: RegionScanner): set<object> {
    if s.ThemisScanner? then {s.scanner} else {}
  }

  /**
   * `ThemisScanObserver.preScannerNext`: runs `next` for a Themis scanner;
   * for any other scanner it changes nothing and passes `hasMore` through.
   */
  method PreScannerNext(region: Region, s: RegionScanner, results: ResultList, limit: int, hasMore: bool)
    returns (more: bool)
    requires s.ThemisScanner? ==> s.scanner.Valid()
    modifies Footprint(s), results
    ensures !s.ThemisScanner? ==> more == hasMore && results.items == old(results.items)
    ensures s.ThemisScanner? ==>
      var o := Advance(region, s.scanner.dataColumnFilter, old(s.scanner.Remaining()), limit);
      && s.scanner.Valid()
      && results.items == old(results.items) + o.rows
      && more == o.more
      && s.scanner.pos == old(s.scanner.pos) + o.pulled
  {
    if s.ThemisScanner? {
      more := Next(region, s.scanner, results, limit);
      return;
    }
    return hasMore;
  }
}
