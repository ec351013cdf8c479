/** The canonical log entry every ingestion path produces
    (`LogEntry` in core/log_types.py). */
module LogTypes {
  import opened Json

  /** A Python `datetime` as `datetime.fromisoformat` returns it: the
      calendar fields and an optional UTC offset in minutes (absent for a
      naive datetime). Calendar arithmetic is not modelled. */
  datatype DateTime = DateTime(
    year: int, month: int, day: int,
    hour: int, minute: int, second: int, microsecond: int,
    utcOffsetMinutes: Option<int>)

  /** An immutable record; `data` is present only when the payload's
      `data` field was itself an object. */
  datatype LogEntry = LogEntry(
    id: string,
    timestamp: DateTime,
    level: string,
    message: string,
    data: Option<map<string, JsonValue>>,
    source: string)
}
