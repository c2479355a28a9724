# Themis coprocessor observers in Dafny

Themis adds cross-row snapshot transactions to HBase through coprocessors.
This project models two of its observers and proves what they promise.

- **The region observer `ThemisScanObserver`.** Opening a scan whose attributes carry the
  transaction start timestamp (`_themisTransationStartTs_`) replaces the region's scanner with a
  `ThemisServerScanner`. That scanner reads the lock and write cells of the snapshot. Advancing it
  (`next`) pulls one row at a time:
  - a row holding lock cells emits those lock cells, as a conflict;
  - otherwise the PUT-typed write records of the row are turned into one `Get` for the data cells
    they point to, and a non-empty answer is emitted;
  - rows with only DELETE records, or whose data lookup finds nothing, emit nothing.

  The loop stops after `limit` emitted rows, or when the scanner reports no more rows.
- **The master observer `ThemisMasterObserver`.** Before a table is created, the guard checks
  whether some family sets `THEMIS_ENABLE` to true. If so, it checks every family in turn:
  - the family must not be named like the lock family `L`;
  - it must not set a time-to-live;
  - its version limit must be the default or unlimited.

  It lifts each passing family's version limit to `Integer.MAX_VALUE` and throws at the first
  failure. When every family passes, it adds the lock family: in memory, one version, no expiry.

The Java code works by updating objects in place, and the model keeps that form:
- `ThemisServerScanner`, the caller's result list, `HColumnDescriptor` and `HTableDescriptor`
  are classes, and their operations are methods with `modifies` clauses.
- Each method is proved against a function on values: `ScanObserver.Advance` for `next`, and
  `MasterObserver.PreCreateTableSpec` for `preCreateTable`.
- The lemmas state the observers' guarantees about those functions:
  - results bounded by the limit, in scan order, and the return value;
  - what a locked, a delete-only and an unlocked row emit;
  - when table creation succeeds, what it adds, and what a failure leaves.

Files:
- `common.dfy`: shared values (`Option`, `Result`, `Integer.MAX_VALUE`, the lock family name).
- `cp_util.dfy`: cells, the region's data store, and the `ThemisCpUtil` helpers the scan loop uses,
  specified by their behaviour.
- `scan_observer.dfy`: the region observer.
- `master_observer.dfy`: the master observer.

## Model

| member | source | states |
|---|---|---|
| CpUtil.SeparateLockAndWriteKvs | themis-coprocessor/src/main/java/org/apache/hadoop/hbase/themis/cp/ThemisScanObserver.java:35-36 | the split of a row's cells into lock cells and write cells never yields more cells than the row had |
| CpUtil.SeparateLockAndWriteKvsPartitions | themis-coprocessor/src/main/java/org/apache/hadoop/hbase/themis/cp/ThemisScanObserver.java:35-37 | the lock list holds exactly the row's lock-family cells, the write list exactly its write records, and the lock list is empty iff the row has no lock cell |
| CpUtil.FilterMembers | themis-coprocessor/src/main/java/org/apache/hadoop/hbase/themis/cp/ThemisScanObserver.java:38-40 | keeping the cells that satisfy a test keeps exactly those cells, in any row, and the result is empty iff there are none |
| CpUtil.GetPutKvs | themis-coprocessor/src/main/java/org/apache/hadoop/hbase/themis/cp/ThemisScanObserver.java:38-40 | the PUT list holds exactly the write records of type PUT, and is empty iff the row has none |
| CpUtil.ConstructDataGetByPutKvs | themis-coprocessor/src/main/java/org/apache/hadoop/hbase/themis/cp/ThemisScanObserver.java:42 | the data lookup is on the row of the write records and asks for one column per PUT record |
| CpUtil.DataGetPointsToPuts | themis-coprocessor/src/main/java/org/apache/hadoop/hbase/themis/cp/ThemisScanObserver.java:42 | the lookup's columns are exactly the columns the PUT records point to, each at the record's start timestamp |
| CpUtil.Lookup | themis-coprocessor/src/main/java/org/apache/hadoop/hbase/themis/cp/ThemisScanObserver.java:43 | a point lookup finds a cell exactly when the region stores data at that row, column and timestamp, and returns a data cell of that row |
| CpUtil.RegionGet | themis-coprocessor/src/main/java/org/apache/hadoop/hbase/themis/cp/ThemisScanObserver.java:43-44 | the region's get returns exactly the stored cells at the requested columns that pass the scan's filter |
| ScanObserver.ThemisServerScanner.constructor | themis-coprocessor/src/main/java/org/apache/hadoop/hbase/themis/cp/ThemisScanObserver.java:92-93 | a new scanner has all of the internal scanner's pulls still to make, and keeps the scan's filter for data cells |
| ScanObserver.ThemisServerScanner.Pull | themis-coprocessor/src/main/java/org/apache/hadoop/hbase/themis/cp/ThemisScanObserver.java:32 | a pull answers the next row's cells and whether more rows follow, and advances by one; an exhausted scanner answers no cells and no more rows |
| ScanObserver.ResultList.Add | themis-coprocessor/src/main/java/org/apache/hadoop/hbase/themis/cp/ThemisScanObserver.java:45 | appending a result leaves the earlier results and adds it at the end |
| ScanObserver.ProcessRow | themis-coprocessor/src/main/java/org/apache/hadoop/hbase/themis/cp/ThemisScanObserver.java:33-54 | a row that emits anything emits a non-empty result |
| ScanObserver.Advance | themis-coprocessor/src/main/java/org/apache/hadoop/hbase/themis/cp/ThemisScanObserver.java:28-61 | the reference definition of one call of `next` on the pulls still to make: it makes no more pulls than there are; what it appends and answers is stated by the `Advance` lemmas below |
| ScanObserver.EmitRow | themis-coprocessor/src/main/java/org/apache/hadoop/hbase/themis/cp/ThemisScanObserver.java:33-54 | processing one pulled row appends exactly what that row emits, and reports whether it counted against the limit |
| ScanObserver.NextRow | themis-coprocessor/src/main/java/org/apache/hadoop/hbase/themis/cp/ThemisScanObserver.java:32-58 | one pass of the row loop makes exactly one pull when rows remain, appends that row's result, and is the first step of `Advance` |
| ScanObserver.Next | themis-coprocessor/src/main/java/org/apache/hadoop/hbase/themis/cp/ThemisScanObserver.java:28-61 | `next` appends exactly `Advance`'s rows, returns its answer, and advances the scanner by exactly the pulls it made |
| ScanObserver.AdvanceAppendsAtMostLimit | themis-coprocessor/src/main/java/org/apache/hadoop/hbase/themis/cp/ThemisScanObserver.java:31-60 | at most `limit` results are appended, and exactly `limit` when `next` answers true; a non-positive limit pulls nothing and answers true |
| ScanObserver.AdvanceReturnValue | themis-coprocessor/src/main/java/org/apache/hadoop/hbase/themis/cp/ThemisScanObserver.java:31-60 | `next` answers true iff `limit` results were appended before any pull reported no more rows: it answers false at the first pull reporting no more rows, or when the scanner is exhausted first |
| ScanObserver.AdvanceEmitsInScanOrder | themis-coprocessor/src/main/java/org/apache/hadoop/hbase/themis/cp/ThemisScanObserver.java:31-59 | the appended results are exactly the pulled rows' contributions, in scan order, with none dropped, added or reordered |
| ScanObserver.AdvanceStopsAtLimit | themis-coprocessor/src/main/java/org/apache/hadoop/hbase/themis/cp/ThemisScanObserver.java:31 | no pull is made once `limit` results have been emitted |
| ScanObserver.EmptyBatchIgnored | themis-coprocessor/src/main/java/org/apache/hadoop/hbase/themis/cp/ThemisScanObserver.java:33-58 | for any pulls and any budget, a first pull with no cells emits nothing and spends no budget: `next` goes on to the next pull with the same budget, or answers false if no more rows were reported |
| ScanObserver.LockedRowEmitsLocks | themis-coprocessor/src/main/java/org/apache/hadoop/hbase/themis/cp/ThemisScanObserver.java:35-37 | a row with a lock cell emits exactly its lock cells, whatever write records it holds |
| ScanObserver.DeleteOnlyRowSkipped | themis-coprocessor/src/main/java/org/apache/hadoop/hbase/themis/cp/ThemisScanObserver.java:38-40 | a row without locks or PUT records, such as one with only DELETE records, emits nothing |
| ScanObserver.UnlockedRowEmitsPointedData | themis-coprocessor/src/main/java/org/apache/hadoop/hbase/themis/cp/ThemisScanObserver.java:37-48 | an unlocked row emits exactly the stored data cells its PUT records point to that pass the filter, and nothing when there are none |
| ScanObserver.RowReadsPointedData | themis-coprocessor/src/main/java/org/apache/hadoop/hbase/themis/cp/ThemisScanObserver.java:38-46 | a PUT committed at 10 and pointing to 5 reads the data stored at 5 |
| ScanObserver.LockedRowReportsConflict | themis-coprocessor/src/main/java/org/apache/hadoop/hbase/themis/cp/ThemisScanObserver.java:49-52 | a row with a lock at 8 and an older PUT at 3 emits the lock, not the data |
| ScanObserver.GetStartTsFromAttribute | themis-coprocessor/src/main/java/org/apache/hadoop/hbase/themis/cp/ThemisScanObserver.java:107-110 | the start timestamp is present iff the scan carries the attribute, and is its value |
| ScanObserver.CheckFamily | themis-coprocessor/src/main/java/org/apache/hadoop/hbase/themis/cp/ThemisScanObserver.java:103-105 | the family check passes iff every requested family is configured for Themis; otherwise it names a requested family that is not |
| ScanObserver.PreScannerOpen | themis-coprocessor/src/main/java/org/apache/hadoop/hbase/themis/cp/ThemisScanObserver.java:85-101 | a scan without a start timestamp keeps its scanner; a Themis scan fails on a family not configured for Themis, and otherwise gets a new Themis scanner over the internal pulls with the scan's filter |
| ScanObserver.PreScannerNext | themis-coprocessor/src/main/java/org/apache/hadoop/hbase/themis/cp/ThemisScanObserver.java:65-80 | a Themis scanner is advanced by `next`; any other scanner is left alone and `hasMore` is passed through |
| MasterObserver.NewFamily | themis-coprocessor/src/main/java/org/apache/hadoop/hbase/master/ThemisMasterObserver.java:61 | a new family descriptor has no user values, no expiry, the default version limit, and is not in memory |
| MasterObserver.ColumnDescriptor.constructor | themis-coprocessor/src/main/java/org/apache/hadoop/hbase/master/ThemisMasterObserver.java:61 | a new descriptor holds the defaults for its name |
| MasterObserver.ColumnDescriptor.GetValue | themis-coprocessor/src/main/java/org/apache/hadoop/hbase/master/ThemisMasterObserver.java:27 | a user value is found iff the key is set, and is the value stored under it |
| MasterObserver.ColumnDescriptor.SetMaxVersions | themis-coprocessor/src/main/java/org/apache/hadoop/hbase/master/ThemisMasterObserver.java:53 | only the version limit changes |
| MasterObserver.ColumnDescriptor.SetInMemory | themis-coprocessor/src/main/java/org/apache/hadoop/hbase/master/ThemisMasterObserver.java:62 | only the in-memory flag changes |
| MasterObserver.ColumnDescriptor.SetTimeToLive | themis-coprocessor/src/main/java/org/apache/hadoop/hbase/master/ThemisMasterObserver.java:64 | only the time-to-live changes |
| MasterObserver.TableDescriptor.constructor | themis-coprocessor/src/main/java/org/apache/hadoop/hbase/master/ThemisMasterObserver.java:24 | a table descriptor holds its families, no two with the same name |
| MasterObserver.TableDescriptor.AddFamily | themis-coprocessor/src/main/java/org/apache/hadoop/hbase/master/ThemisMasterObserver.java:55 | adding a family replaces the family of the same name if there is one, and appends it otherwise; names stay unique |
| MasterObserver.FamilyIndex | themis-coprocessor/src/main/java/org/apache/hadoop/hbase/master/ThemisMasterObserver.java:55 | finds the position of the family with a given name, or the end iff there is none |
| MasterObserver.ParseBooleanAcceptsTrue | themis-coprocessor/src/main/java/org/apache/hadoop/hbase/master/ThemisMasterObserver.java:28 | a value parses as true iff it is the four letters of "true", each in lower or upper case; so "True" and "TRUE" do, and "yes" and "1" do not |
| MasterObserver.FindThemisEnable | themis-coprocessor/src/main/java/org/apache/hadoop/hbase/master/ThemisMasterObserver.java:25-32 | the table asks for Themis iff some family's `THEMIS_ENABLE` value parses as true |
| MasterObserver.Violation | themis-coprocessor/src/main/java/org/apache/hadoop/hbase/master/ThemisMasterObserver.java:36-52 | a family passes iff it is not named like the lock family, sets no time-to-live, and keeps the default or unlimited version limit |
| MasterObserver.FirstViolationIsFirst | themis-coprocessor/src/main/java/org/apache/hadoop/hbase/master/ThemisMasterObserver.java:35-54 | the checking loop stops at the first family that fails, and finds none exactly when every family passes |
| MasterObserver.CheckColumnFamily | themis-coprocessor/src/main/java/org/apache/hadoop/hbase/master/ThemisMasterObserver.java:36-52 | the per-family checks are made in source order and give that family's violation |
| MasterObserver.CheckAndLiftFamilies | themis-coprocessor/src/main/java/org/apache/hadoop/hbase/master/ThemisMasterObserver.java:35-54 | the checking loop lifts the version limit of every family before the first failure, leaves the rest untouched, and reports that failure |
| MasterObserver.CreateLockFamily | themis-coprocessor/src/main/java/org/apache/hadoop/hbase/master/ThemisMasterObserver.java:60-68 | the new lock family is named `L`, kept in memory, keeps one version, and never expires |
| MasterObserver.AddLockFamily | themis-coprocessor/src/main/java/org/apache/hadoop/hbase/master/ThemisMasterObserver.java:55 | adding the lock family keeps the existing descriptors and appends the new one after them |
| MasterObserver.PreCreateTableSpec | themis-coprocessor/src/main/java/org/apache/hadoop/hbase/master/ThemisMasterObserver.java:23-58 | the reference definition of `preCreateTable` on the families' values: the table gains exactly one family when Themis is asked for and creation succeeds, and otherwise keeps its number of families |
| MasterObserver.PreCreateTable | themis-coprocessor/src/main/java/org/apache/hadoop/hbase/master/ThemisMasterObserver.java:23-58 | the table's families end up as `PreCreateTableSpec` says, existing descriptors are kept, and any added one is new |
| MasterObserver.PreCreateTableSucceedsIff | themis-coprocessor/src/main/java/org/apache/hadoop/hbase/master/ThemisMasterObserver.java:25-55 | creation succeeds iff Themis is not asked for or every family passes; a table not asking for Themis is unchanged |
| MasterObserver.RejectsReservedName | themis-coprocessor/src/main/java/org/apache/hadoop/hbase/master/ThemisMasterObserver.java:36-40 | with Themis asked for, a family named like the lock family makes creation fail |
| MasterObserver.RejectsTimeToLive | themis-coprocessor/src/main/java/org/apache/hadoop/hbase/master/ThemisMasterObserver.java:42-46 | with Themis asked for, any family with a time-to-live makes creation fail |
| MasterObserver.RejectsMaxVersions | themis-coprocessor/src/main/java/org/apache/hadoop/hbase/master/ThemisMasterObserver.java:47-52 | with Themis asked for, a version limit other than the default or unlimited makes creation fail |
| MasterObserver.SuccessAddsOnlyLockFamily | themis-coprocessor/src/main/java/org/apache/hadoop/hbase/master/ThemisMasterObserver.java:53-55 | on success every family keeps all but its version limit, which becomes unlimited, and the lock family is added last; it is the only family of that name |
| MasterObserver.CheckAndLiftStopsAt | themis-coprocessor/src/main/java/org/apache/hadoop/hbase/master/ThemisMasterObserver.java:35-54 | the checking loop leaves the families before the stopping point lifted and those from it on untouched |
| MasterObserver.FailureAddsNoFamily | themis-coprocessor/src/main/java/org/apache/hadoop/hbase/master/ThemisMasterObserver.java:35-54 | on failure the error is the first failing family's, no family is added, the families before it are lifted, and the rest are unchanged |
| MasterObserver.ConvertedTableIsRefused | themis-coprocessor/src/main/java/org/apache/hadoop/hbase/master/ThemisMasterObserver.java:36-40 | a table the guard converted would be refused if submitted again, because of its lock family |
| MasterObserver.AcceptsPlainThemisTable | themis-coprocessor/src/main/java/org/apache/hadoop/hbase/master/ThemisMasterObserver.java:25-55 | a family `cf` asking for Themis with no other settings is accepted with unlimited versions, and the lock family is added |
| MasterObserver.RefusesThemisTableWithExpiry | themis-coprocessor/src/main/java/org/apache/hadoop/hbase/master/ThemisMasterObserver.java:42-46 | the same family with a one-hour time-to-live makes creation fail |

## Left out

- Failures of the storage layer are not modelled: the internal scanner's `next`, `HRegion.get` and `getScanner` are treated as never throwing. The `DoNotRetryIOException` wrapping in `preScannerNext` and `preScannerOpen` is therefore not modelled either.
- Logging and `ObserverContext.bypass` are not modelled. The model returns the scanner or the answer, which is what bypassing makes visible.
- `Bytes.toLong` is not modelled: the start-timestamp attribute is taken as already decoded.
- `ThemisCpUtil.constructLockAndWriteScan` and `HRegion.getScanner` are not part of this model. The pulls the internal scanner will answer are a parameter of `PreScannerOpen`. So which cells are visible at the snapshot timestamp (a write committed after it, say) is outside this model.
- ScanObserver.CheckFamily: `ThemisProtocolImpl.checkFamily` is not part of this model. This function stands in for it as "every requested family is configured for Themis".
- The `ThemisCpUtil` helpers (`seperateLockAndWriteKvs`, `getPutKvs`, `constructDataGetByPutKvs`) are not part of this model. They are given definitions that match how the scan loop uses them: the lock family is `L`, and a write record points to its data by start timestamp. The data column a write record points to is taken to be the write cell's own family and qualifier (`CpUtil.PointedColumn`); Themis's own mapping from a write column to its data column, which keeps write and data cells in different families, is not modelled.
- CpUtil.GetPutKvs: keeps every PUT record of the row. How `ThemisCpUtil.getPutKvs` weighs a PUT against a newer DELETE of the same column is not known here, so a row holding both still reads the data the PUT points to.
- `HRegion.get` is modelled as exact-timestamp lookups in a map of stored data cells followed by the scan's filter. Versions, deletes and row locks inside the region are not modelled. The scan's filter is modelled as a test on single cells, so HBase filters that decide on a whole row (`filterRow`, `filterRowKey`) are not modelled.
- `next` clears and reuses one `values` list across pulls. The model hands each pull a fresh sequence, which is the same contents.
- `HTableDescriptor` keeps families in a map ordered by name. The model keeps them in iteration order and appends the lock family, so where the lock family sorts among the others is not modelled.
- `HColumnDescriptor` stores its settings as strings. The model keeps the four settings the guard reads or writes as typed fields, and the user values in a map.
- `Boolean.parseBoolean` is modelled as an ASCII case-insensitive comparison with `"true"`.
- A throw inside `preCreateTable`'s second loop is modelled as an error result. The checking loop stops at that family, and the families before it keep their lifted version limit, as in Java.
- The `regions` argument of `preCreateTable` is unused by the source and is left out.
