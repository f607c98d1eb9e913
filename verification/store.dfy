/**
  The store writer, `insertDataWithContext`: one insert of the record, raced
  against its own deadline. The goroutine, the channel and the `select` are not
  modelled step by step; what the function can observe of them is given as a
  `StoreWorld` value: whether the database handle exists, what the insert
  itself ends with, and which signal the `select` takes first.
*/
module Store {
  import opened Options
  import opened Rates

  /** The process-wide database handle: nil, or opened at start-up. */
  datatype Database = Uninitialized | Initialized

  /** How the `ExecContext` call ends, whenever it ends. */
  datatype ExecResult = Committed | ExecError(cause: string)

  /** Which ready case the `select` takes: the insert's result on the channel,
      or the context's `Done` signal. */
  datatype Race = ExecFirst | DeadlineFirst

  datatype StoreWorld = StoreWorld(db: Database, exec: ExecResult, race: Race)

  /** The three error returns of the writer. */
  datatype StoreError =
    | NotInitialized
    | TimedOut
    | InsertFailed(cause: string)

  /** What one call did: the error it returned, whether the insert was
      dispatched, and the row that reached the table, if any. */
  datatype InsertReport = InsertReport(error: Option<StoreError>, dispatched: bool, row: Option<ExchangeRate>)

  /** One run of the writer. The insert is dispatched only when the handle
      exists; once dispatched, it may commit even after the deadline has won
      the race, so a reported time-out does not mean that no row was written. */
  function InsertWithDeadline(rec: ExchangeRate, world: StoreWorld): (rep: InsertReport)
    ensures rep.error.None? <==>
      world.db.Initialized? && world.race.ExecFirst? && world.exec.Committed?
    ensures rep.error == Some(NotInitialized) <==> world.db.Uninitialized?
    ensures rep.error == Some(TimedOut) <==> world.db.Initialized? && world.race.DeadlineFirst?
    ensures rep.error.Some? && rep.error.value.InsertFailed? ==>
      world.exec == ExecError(rep.error.value.cause) && world.race.ExecFirst?
    ensures rep.dispatched <==> world.db.Initialized?
    ensures rep.row.Some? <==> world.db.Initialized? && world.exec.Committed?
    ensures rep.row.Some? ==> rep.dispatched && rep.row.value == rec
    ensures rep.error.None? ==> rep.row == Some(rec)
  {
    if world.db.Uninitialized? then
      InsertReport(Some(NotInitialized), false, None)
    else
      var row := if world.exec.Committed? then Some(rec) else None;
      match world.race
      case DeadlineFirst => InsertReport(Some(TimedOut), true, row)
      case ExecFirst =>
        match world.exec
        case ExecError(cause) => InsertReport(Some(InsertFailed(cause)), true, row)
        case Committed => InsertReport(None, true, row)
  }

  /** A time-out is reported even in a run whose insert did commit: the
      reported error and the table can disagree. */
  lemma TimedOutInsertMayStillCommit(rec: ExchangeRate)
    ensures var rep := InsertWithDeadline(rec, StoreWorld(Initialized, Committed, DeadlineFirst));
      rep.error == Some(TimedOut) && rep.row == Some(rec)
  {
  }
}
