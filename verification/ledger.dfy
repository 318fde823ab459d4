/**
 * The usage ledger: one `{count, date}` record in a file, shared by every
 * connection, that caps the number of provider calls made per calendar day.
 */
module Ledger {

  datatype Option<T> = None | Some(value: T)

  /** A calendar day in the `YYYY-MM-DD` form the server stamps records with. */
  type Date = string

  datatype UsageRecord = UsageRecord(count: int, date: Date)

  /** Provider calls allowed per day, across all connections. */
  const DAILY_LIMIT: int := 20

  /**
   * `getApiUsage`: the record the file holds, seen on `today`. `None` stands
   * for a file that is absent or cannot be read or parsed; such a file, like
   * a record of another day, reads as a fresh zero count for today. Reading
   * never changes the file and never fails.
   */
  function ReadUsage(stored: Option<UsageRecord>, today: Date): (r: UsageRecord)
    ensures r.date == today
    ensures stored.Some? && stored.value.date == today ==> r == stored.value
    ensures r.count != 0 ==> stored == Some(r)
  {
    match stored
    case Some(record) => if record.date != today then UsageRecord(0, today) else record
    case None => UsageRecord(0, today)
  }

  /**
   * How one `writeFileSync` of the usage file ends. The file is opened with
   * flag `'w'`, which empties it before anything is written, so a write that
   * fails after the open leaves the file empty or holding a strict prefix of
   * the JSON text; neither parses.
   */
  datatype WriteOutcome =
    | Landed   // the whole record reached the file
    | Refused  // the open itself failed: the file is as it was
    | Torn     // opened and emptied, then not completely written: unreadable

  /**
   * The file after `updateApiUsage(count)` on `today`. A failed write is
   * swallowed by the server, whichever way it failed.
   */
  function AfterWrite(stored: Option<UsageRecord>, count: int, today: Date, w: WriteOutcome): Option<UsageRecord>
  {
    match w
    case Landed => Some(UsageRecord(count, today))
    case Refused => stored
    case Torn => None
  }

  /** A written count is read back on the same day, whatever the file held before. */
  lemma ReadAfterWrite(stored: Option<UsageRecord>, count: int, today: Date)
    ensures ReadUsage(AfterWrite(stored, count, today, Landed), today) == UsageRecord(count, today)
  {
  }

  /** A torn write loses the day's count: the file then reads as a fresh counter on any day. */
  lemma TornWriteResetsCount(stored: Option<UsageRecord>, count: int, today: Date, day: Date)
    ensures ReadUsage(AfterWrite(stored, count, today, Torn), day) == UsageRecord(0, day)
  {
  }

  /** The stored count does not exceed the daily limit, whatever day it is for. */
  predicate Capped(stored: Option<UsageRecord>) {
    stored.Some? ==> stored.value.count <= DAILY_LIMIT
  }

  /** A capped file reads as within the limit on every day. */
  lemma CappedReadsWithinLimit(stored: Option<UsageRecord>, today: Date)
    requires Capped(stored)
    ensures ReadUsage(stored, today).count <= DAILY_LIMIT
  {
  }

  /** The usage file itself, updated in place by `updateApiUsage`. */
  class UsageFile {
    var stored: Option<UsageRecord>

    constructor (initial: Option<UsageRecord>)
      ensures stored == initial
    {
      stored := initial;
    }

    /** `updateApiUsage(count)` on `today`; `w` says how the file write ended. */
    method Update(count: int, today: Date, w: WriteOutcome)
      modifies this
      ensures w == Landed ==> stored == Some(UsageRecord(count, today))
      ensures w == Refused ==> stored == old(stored)
      ensures w == Torn ==> stored == None
      ensures stored == AfterWrite(old(stored), count, today, w)
    {
      match w
      case Landed => stored := Some(UsageRecord(count, today));
      case Refused =>
      case Torn => stored := None;
    }
  }
}
