/**
 * The cells a Themis snapshot scan reads, the store that a region's point
 * lookup (`HRegion.get`) reads from, and the `ThemisCpUtil` helpers that the
 * scan loop relies on: splitting one row's cells into lock and write cells,
 * keeping the PUT-typed write cells, and building the data lookup those
 * write cells point to.
 */
module CpUtil {
  import opened Common

  /** The type tag of a write (commit) record. */
  datatype WriteType = Put | Delete

  /**
   * What a cell holds: opaque bytes (a lock's metadata or a user value), or a
   * write record that points at the start timestamp of the data it commits.
   */
  datatype Payload = Raw(bytes: seq<bv8>) | WriteRecord(wtype: WriteType, startTs: int)

  /** A `KeyValue`. */
  datatype Cell = Cell(row: string, family: string, qualifier: string, ts: int, payload: Payload)

  /** A `Result`: the cells returned for one row. */
  datatype RowResult = RowResult(cells: seq<Cell>)

  /** The address of a stored data cell. */
  datatype Coordinate = Coordinate(row: string, family: string, qualifier: string, ts: int)

  /** One column of a data lookup: family, qualifier and exact timestamp. */
  datatype Column = Column(family: string, qualifier: string, ts: int)

  /** A `Get` on one row for a list of exactly-timestamped columns. */
  datatype DataGet = DataGet(row: string, columns: seq<Column>)

  /**
   * What the scan needs of an `HRegion`: the data cells it stores, and the
   * families its table has configured for Themis transactions.
   */
  datatype Region = Region(data: map<Coordinate, seq<bv8>>, themisFamilies: set<string>)

  /** A cell of the reserved lock family. */
  predicate IsLockCell(c: Cell) {
    c.family == LockFamilyName
  }

  /** A write (commit) record outside the lock family. */
  predicate IsWriteCell(c: Cell) {
    !IsLockCell(c) && c.payload.WriteRecord?
  }

  /** A write record of type PUT. */
  predicate IsPutCell(c: Cell) {
    IsWriteCell(c) && c.payload.wtype == Put
  }

  /** The cells of `cells` that satisfy `keep`, in their original order. */
  function Filter(cells: seq<Cell>, keep: Cell -> bool): (r: seq<Cell>)
    ensures |r| <= |cells|
  {
    if cells == [] then []
    else (if keep(cells[0]) then [cells[0]] else []) + Filter(cells[1..], keep)
  }

  /** `Filter` keeps exactly the cells satisfying `keep`, and is empty iff there are none. */
  lemma {:induction false} FilterMembers(cells: seq<Cell>, keep: Cell -> bool)
    ensures forall c :: c in Filter(cells, keep) <==> c in cells && keep(c)
    ensures Filter(cells, keep) == [] <==> forall c | c in cells :: !keep(c)
  {
    if cells != [] {
      FilterMembers(cells[1..], keep);
      assert forall c :: c in cells <==> c == cells[0] || c in cells[1..];
    }
  }

  /**
   * `ThemisCpUtil.seperateLockAndWriteKvs`: splits a row's cells by family
   * into its lock cells and its write cells.
   */
  function SeparateLockAndWriteKvs(cells: seq<Cell>): (r: (seq<Cell>, seq<Cell>))
    ensures |r.0| + |r.1| <= |cells|
  {
    SplitCountBound(cells);
    (Filter(cells, IsLockCell), Filter(cells, IsWriteCell))
  }

  /** No cell is both a lock cell and a write cell, so the split never duplicates. */
  lemma {:induction false} SplitCountBound(cells: seq<Cell>)
    ensures |Filter(cells, IsLockCell)| + |Filter(cells, IsWriteCell)| <= |cells|
  {
    if cells != [] {
      SplitCountBound(cells[1..]);
    }
  }

  /** The split puts every lock cell, and only those, on the left, and every write cell on the right. */
  lemma SeparateLockAndWriteKvsPartitions(cells: seq<Cell>)
    ensures var (locks, writes) := SeparateLockAndWriteKvs(cells);
      && (forall c :: c in locks <==> c in cells && IsLockCell(c))
      && (forall c :: c in writes <==> c in cells && IsWriteCell(c))
      && (locks == [] <==> forall c | c in cells :: !IsLockCell(c))
  {
    FilterMembers(cells, IsLockCell);
    FilterMembers(cells, IsWriteCell);
  }

  /** `ThemisCpUtil.getPutKvs`: keeps the PUT-typed write cells. */
  function GetPutKvs(writes: seq<Cell>): (puts: seq<Cell>)
    ensures forall c :: c in puts <==> c in writes && IsPutCell(c)
    ensures puts == [] <==> forall c | c in writes :: !IsPutCell(c)
  {
    FilterMembers(writes, IsPutCell);
    Filter(writes, IsPutCell)
  }

  /** The data column a write cell points to: same column, the write's start timestamp. */
  function PointedColumn(w: Cell): Column {
    Column(w.family, w.qualifier, if w.payload.WriteRecord? then w.payload.startTs else w.ts)
  }

  /** The pointed columns of `puts`, one per write cell, in order. */
  function PointedColumns(puts: seq<Cell>): (cols: seq<Column>)
    ensures |cols| == |puts|
  {
    if puts == [] then [] else [PointedColumn(puts[0])] + PointedColumns(puts[1..])
  }

  /**
   * `ThemisCpUtil.constructDataGetByPutKvs`: a lookup on the row of the
   * write cells for the data each of them points to.
   */
  function ConstructDataGetByPutKvs(puts: seq<Cell>): (g: DataGet)
    requires |puts| > 0
    ensures g.row == puts[0].row && |g.columns| == |puts|
  {
    DataGet(puts[0].row, PointedColumns(puts))
  }

  /** The lookup asks for exactly the columns the write cells point to. */
  lemma {:induction false} DataGetPointsToPuts(puts: seq<Cell>)
    requires |puts| > 0
    ensures forall col :: col in ConstructDataGetByPutKvs(puts).columns <==>
      exists w :: w in puts && col == PointedColumn(w)
  {
    PointedColumnsMembers(puts);
  }

  lemma {:induction false} PointedColumnsMembers(puts: seq<Cell>)
    ensures forall col :: col in PointedColumns(puts) <==> exists w :: w in puts && col == PointedColumn(w)
  {
    if puts != [] {
      PointedColumnsMembers(puts[1..]);
      assert forall w :: w in puts <==> w == puts[0] || w in puts[1..];
    }
  }

  /** The data cell stored at `col` of `row`, if any. */
  function Lookup(region: Region, row: string, col: Column): (r: Option<Cell>)
    ensures r.Some? ==> r.value.row == row && r.value.payload.Raw?
    ensures r.Some? <==> Coordinate(row, col.family, col.qualifier, col.ts) in region.data
  {
    var key := Coordinate(row, col.family, col.qualifier, col.ts);
    if key in region.data then Some(Cell(row, col.family, col.qualifier, col.ts, Raw(region.data[key])))
    else None
  }

  /**
   * `HRegion.get`: the stored cells at the lookup's columns that pass the
   * scan's data-column filter.
   */
  function RegionGet(region: Region, get: DataGet, filter: Cell -> bool): (r: seq<Cell>)
    ensures forall c :: c in r <==>
      exists col :: col in get.columns && Lookup(region, get.row, col) == Some(c) && filter(c)
  {
    LookupAllMembers(region, get.row, get.columns, filter);
    LookupAll(region, get.row, get.columns, filter)
  }

  function LookupAll(region: Region, row: string, cols: seq<Column>, filter: Cell -> bool): (r: seq<Cell>)
    ensures |r| <= |cols|
  {
    if cols == [] then []
    else
      var here := Lookup(region, row, cols[0]);
      (if here.Some? && filter(here.value) then [here.value] else []) + LookupAll(region, row, cols[1..], filter)
  }

  lemma {:induction false} LookupAllMembers(region: Region, row: string, cols: seq<Column>, filter: Cell -> bool)
    ensures forall c :: c in LookupAll(region, row, cols, filter) <==>
      exists col :: col in cols && Lookup(region, row, col) == Some(c) && filter(c)
  {
    if cols != [] {
      LookupAllMembers(region, row, cols[1..], filter);
      assert forall col :: col in cols <==> col == cols[0] || col in cols[1..];
    }
  }
}
