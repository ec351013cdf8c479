/** The process-wide services the normalizer draws on: the library calls,
    `uuid.uuid4()` and `datetime.utcnow()`. Their values are not computed
    here; they are fixed when the runtime is created, as a stream indexed
    by how many normalisations have happened so far. */
module Environment {
  import opened Json
  import opened LogTypes
  import opened Ingest

  /** What `uuid4` is relied on for: no two calls give the same id. */
  ghost predicate DistinctIds(uuid: nat -> string) {
    forall i, j :: i != j ==> uuid(i) != uuid(j)
  }

  class Runtime {
    const lib: Library
    /** The id the n-th `uuid4()` call returns. */
    const uuid: nat -> string
    /** The time `utcnow()` reads during the n-th normalisation. */
    const clock: nat -> DateTime
    /** How many entries have been normalised so far. */
    var draws: nat

    constructor (lib: Library, uuid: nat -> string, clock: nat -> DateTime)
      ensures this.lib == lib && this.uuid == uuid && this.clock == clock
      ensures draws == 0
    {
      this.lib := lib;
      this.uuid := uuid;
      this.clock := clock;
      draws := 0;
    }

    /** One call of `to_log_entry(payload, source)`, drawing its fresh id
        and its current time. */
    method Normalize(payload: JsonValue, source: string) returns (e: LogEntry)
      requires payload.JObject?
      modifies this
      ensures e == ToLogEntry(lib, payload, source, uuid(old(draws)), clock(old(draws)))
      ensures draws == old(draws) + 1
    {
      e := ToLogEntry(lib, payload, source, uuid(draws), clock(draws));
      draws := draws + 1;
    }
  }
}
