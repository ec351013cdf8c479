/** Tailing a line stream (Metro's output or any iterable of lines) into a
    log store: the loop both Metro tailers run, its specification, and the
    blocking tailer `MetroTail`. */
module Metro {
  import opened Json
  import opened LogTypes
  import opened Ingest
  import opened Environment
  import opened Store
  import opened Process

  const StdinSource: string := "stdin"
  const MetroSource: string := "metro"

  // ---------------------------------------------------------------------
  // What a stream of lines yields

  /** How the loop body treats one line: `parse_diagnostics_line`, then
      the `if not payload: continue` test and the dict access of
      `to_log_entry`. */
  function LineAdmission(lib: Library, line: string): Admission {
    Classify(ParseDiagnosticsLine(lib, line))
  }

  /** Every payload is a dict, as `to_log_entry` needs. */
  ghost predicate AllObjects(ps: seq<JsonValue>) {
    forall k :: 0 <= k < |ps| ==> ps[k].JObject?
  }

  lemma {:induction false} AllObjectsSnoc(ps: seq<JsonValue>, p: JsonValue)
    requires AllObjects(ps) && p.JObject?
    ensures AllObjects(ps + [p])
  {
  }

  /** The admissions of a stream's lines, in line order. */
  function Admissions(lib: Library, lines: seq<string>): seq<Admission>
    decreases |lines|
  {
    if lines == [] then []
    else Admissions(lib, lines[..|lines| - 1]) + [LineAdmission(lib, lines[|lines| - 1])]
  }

  /** One admission per line. */
  lemma {:induction false} AdmissionsLength(lib: Library, lines: seq<string>)
    ensures |Admissions(lib, lines)| == |lines|
    decreases |lines|
  {
    if lines != [] {
      AdmissionsLength(lib, lines[..|lines| - 1]);
    }
  }

  /** The i-th admission is the i-th line's. */
  lemma {:induction false} AdmissionsAt(lib: Library, lines: seq<string>, i: nat)
    requires i < |lines|
    ensures |Admissions(lib, lines)| == |lines|
    ensures Admissions(lib, lines)[i] == LineAdmission(lib, lines[i])
    decreases |lines|
  {
    var n := |lines| - 1;
    AdmissionsLength(lib, lines);
    if i < n {
      AdmissionsAt(lib, lines[..n], i);
    }
  }

  lemma {:induction false} AdmissionsAppend(lib: Library, a: seq<string>, b: seq<string>)
    ensures Admissions(lib, a + b) == Admissions(lib, a) + Admissions(lib, b)
    decreases |b|
  {
    if b == [] {
      assert a + b == a;
    } else {
      var b' := b[..|b| - 1];
      assert (a + b)[..|a + b| - 1] == a + b';
      assert (a + b)[|a + b| - 1] == b[|b| - 1];
      AdmissionsAppend(lib, a, b');
    }
  }

  /** The admitted payloads of a line stream, in line order, and whether
      reading stopped at a line whose truthy payload is not an object (where
      `to_log_entry` raises). */
  datatype Scan = Scan(payloads: seq<JsonValue>, crashed: bool)

  /** The loop body run over a stream's admissions, up to the first one
      that raises. */
  function ScanAdmissions(adms: seq<Admission>): Scan
    decreases |adms|
  {
    if adms == [] then Scan([], false)
    else
      var before := ScanAdmissions(adms[..|adms| - 1]);
      if before.crashed then before
      else match adms[|adms| - 1]
        case Skip => before
        case Admit(p) => Scan(before.payloads + [p], false)
        case NotAnObject(_) => Scan(before.payloads, true)
  }

  /** The stream `lines` fed through the loop body, up to the first line
      that raises. */
  function ScanLines(lib: Library, lines: seq<string>): Scan {
    ScanAdmissions(Admissions(lib, lines))
  }

  /** Each admission yields at most one payload, and only an admitted one. */
  lemma {:induction false} ScanAdmissionsBound(adms: seq<Admission>)
    ensures |ScanAdmissions(adms).payloads| <= |adms|
    ensures forall p :: p in ScanAdmissions(adms).payloads ==> Admit(p) in adms
    decreases |adms|
  {
    if adms != [] {
      var init := adms[..|adms| - 1];
      ScanAdmissionsBound(init);
      assert forall a :: a in init ==> a in adms;
    }
  }

  /** Each line yields at most one entry. */
  lemma {:induction false} ScanLength(lib: Library, lines: seq<string>)
    ensures |ScanLines(lib, lines).payloads| <= |lines|
  {
    AdmissionsLength(lib, lines);
    ScanAdmissionsBound(Admissions(lib, lines));
  }

  /** Only admitted payloads are kept, and `Classify` admits only
      objects. */
  lemma {:induction false} ScanObjects(lib: Library, lines: seq<string>)
    ensures AllObjects(ScanLines(lib, lines).payloads)
  {
    var adms := Admissions(lib, lines);
    var ps := ScanAdmissions(adms).payloads;
    ScanAdmissionsBound(adms);
    AdmissionsLength(lib, lines);
    forall k | 0 <= k < |ps| ensures ps[k].JObject? {
      assert Admit(ps[k]) in adms;
      var i :| 0 <= i < |adms| && adms[i] == Admit(ps[k]);
      AdmissionsAt(lib, lines, i);
    }
  }

  /** Reading a stream in two parts: the second part is read only if the
      first did not raise, and its payloads follow the first part's. */
  lemma {:induction false} ScanAppend(a: seq<Admission>, b: seq<Admission>)
    ensures ScanAdmissions(a + b) ==
            if ScanAdmissions(a).crashed then ScanAdmissions(a)
            else Scan(ScanAdmissions(a).payloads + ScanAdmissions(b).payloads, ScanAdmissions(b).crashed)
    decreases |b|
  {
    if b == [] {
      assert a + b == a;
    } else {
      var b' := b[..|b| - 1];
      assert (a + b)[..|a + b| - 1] == a + b';
      assert (a + b)[|a + b| - 1] == b[|b| - 1];
      ScanAppend(a, b');
    }
  }

  /** A skipped line (no marker, a payload that is not JSON, or a falsy
      payload such as `{}`, `[]`, `0`, `""`, `null`, `false`) changes
      nothing, wherever it sits in the stream. */
  lemma {:induction false} SkippedLineIgnored(lib: Library, a: seq<string>, line: string, b: seq<string>)
    requires LineAdmission(lib, line).Skip?
    ensures ScanLines(lib, a + [line] + b) == ScanLines(lib, a + b)
  {
    var A, B := Admissions(lib, a), Admissions(lib, b);
    AdmissionsAppend(lib, a + [line], b);
    AdmissionsAppend(lib, a, [line]);
    AdmissionsAppend(lib, a, b);
    assert Admissions(lib, [line]) == [Skip] by { assert [line][..0] == []; }
    assert ScanAdmissions([Skip]) == Scan([], false) by { assert [Skip][..0] == []; }
    ScanAppend(A, [Skip]);
    ScanAppend(A + [Skip], B);
    ScanAppend(A, B);
  }

  /** A truthy payload that is not an object ends the stream: nothing
      after it is read. */
  lemma {:induction false} CrashStopsReading(lib: Library, a: seq<string>, line: string, b: seq<string>)
    requires !ScanLines(lib, a).crashed
    requires LineAdmission(lib, line).NotAnObject?
    ensures ScanLines(lib, a + [line] + b) == Scan(ScanLines(lib, a).payloads, true)
  {
    var A, B := Admissions(lib, a), Admissions(lib, b);
    var x := LineAdmission(lib, line);
    AdmissionsAppend(lib, a + [line], b);
    AdmissionsAppend(lib, a, [line]);
    assert Admissions(lib, [line]) == [x] by { assert [line][..0] == []; }
    assert (A + [x])[..|A|] == A;
    ScanAppend(A + [x], B);
  }

  /** Reading raises exactly when some admission is a truthy non-object. */
  lemma {:induction false} ScanCrashedAdmissions(adms: seq<Admission>)
    ensures ScanAdmissions(adms).crashed <==> exists i :: 0 <= i < |adms| && adms[i].NotAnObject?
    decreases |adms|
  {
    if adms != [] {
      var init := adms[..|adms| - 1];
      ScanCrashedAdmissions(init);
      if exists i :: 0 <= i < |init| && init[i].NotAnObject? {
        var i :| 0 <= i < |init| && init[i].NotAnObject?;
        assert adms[i] == init[i];
      }
      if exists i :: 0 <= i < |adms| && adms[i].NotAnObject? {
        var i :| 0 <= i < |adms| && adms[i].NotAnObject?;
        if i < |init| {
          assert init[i] == adms[i];
        }
      }
    }
  }

  /** Some line of the stream carries a truthy payload that is not an
      object. */
  ghost predicate HasNonObjectLine(lib: Library, lines: seq<string>) {
    exists i :: 0 <= i < |lines| && LineAdmission(lib, lines[i]).NotAnObject?
  }

  /** Tailing a stream raises exactly when one of its lines carries a
      truthy non-object payload, wherever that line sits. */
  lemma {:induction false} ScanCrashed(lib: Library, lines: seq<string>)
    ensures ScanLines(lib, lines).crashed <==> HasNonObjectLine(lib, lines)
  {
    var adms := Admissions(lib, lines);
    AdmissionsLength(lib, lines);
    ScanCrashedAdmissions(adms);
    forall i | 0 <= i < |lines| ensures adms[i] == LineAdmission(lib, lines[i]) {
      AdmissionsAt(lib, lines, i);
    }
  }

  /** One more admission of a stream that has not raised so far: a skipped
      line changes nothing, an admitted one adds its payload, and any other
      raises. */
  lemma {:induction false} ScanStep(adms: seq<Admission>, i: nat)
    requires i < |adms|
    requires !ScanAdmissions(adms[..i]).crashed
    ensures adms[i].Skip? ==> ScanAdmissions(adms[..i + 1]) == ScanAdmissions(adms[..i])
    ensures adms[i].Admit? ==>
              ScanAdmissions(adms[..i + 1]) == Scan(ScanAdmissions(adms[..i]).payloads + [adms[i].payload], false)
    ensures adms[i].NotAnObject? ==>
              ScanAdmissions(adms[..i + 1]) == Scan(ScanAdmissions(adms[..i]).payloads, true)
  {
    assert adms[..i + 1][..i] == adms[..i];
  }

  /** A stream whose prefix up to admission `i` has raised is read no
      further. */
  lemma {:induction false} ScanStopsAt(adms: seq<Admission>, i: nat)
    requires i < |adms|
    requires ScanAdmissions(adms[..i + 1]).crashed
    ensures ScanAdmissions(adms) == ScanAdmissions(adms[..i + 1])
  {
    assert adms == adms[..i + 1] + adms[i + 1..];
    ScanAppend(adms[..i + 1], adms[i + 1..]);
  }

  // ---------------------------------------------------------------------
  // The entries a stream produces

  /** The entries built from `payloads` with `source`, the k-th one
      normalised as the (d + k)-th draw of the runtime. */
  function Entries(lib: Library, payloads: seq<JsonValue>, source: string,
                   uuid: nat -> string, clock: nat -> DateTime, d: nat): seq<LogEntry>
    requires AllObjects(payloads)
    decreases |payloads|
  {
    if payloads == [] then []
    else
      var n := |payloads| - 1;
      Entries(lib, payloads[..n], source, uuid, clock, d)
        + [ToLogEntry(lib, payloads[n], source, uuid(d + n), clock(d + n))]
  }

  /** One more payload adds one more entry, drawn next. */
  lemma {:induction false} EntriesSnoc(lib: Library, ps: seq<JsonValue>, p: JsonValue, source: string,
                    uuid: nat -> string, clock: nat -> DateTime, d: nat)
    requires AllObjects(ps) && p.JObject?
    ensures AllObjects(ps + [p])
    ensures Entries(lib, ps + [p], source, uuid, clock, d) ==
            Entries(lib, ps, source, uuid, clock, d) + [ToLogEntry(lib, p, source, uuid(d + |ps|), clock(d + |ps|))]
  {
    AllObjectsSnoc(ps, p);
    assert (ps + [p])[..|ps|] == ps;
  }

  lemma {:induction false} EntriesLength(lib: Library, payloads: seq<JsonValue>, source: string,
                                         uuid: nat -> string, clock: nat -> DateTime, d: nat)
    requires AllObjects(payloads)
    ensures |Entries(lib, payloads, source, uuid, clock, d)| == |payloads|
    decreases |payloads|
  {
    if payloads != [] {
      EntriesLength(lib, payloads[..|payloads| - 1], source, uuid, clock, d);
    }
  }

  /** The k-th entry is the k-th payload normalised with the (d + k)-th
      draw. */
  lemma {:induction false} EntriesAt(lib: Library, payloads: seq<JsonValue>, source: string,
                                     uuid: nat -> string, clock: nat -> DateTime, d: nat, k: nat)
    requires AllObjects(payloads) && k < |payloads|
    ensures |Entries(lib, payloads, source, uuid, clock, d)| == |payloads|
    ensures Entries(lib, payloads, source, uuid, clock, d)[k] ==
            ToLogEntry(lib, payloads[k], source, uuid(d + k), clock(d + k))
    decreases |payloads|
  {
    var n := |payloads| - 1;
    var init := payloads[..n];
    EntriesLength(lib, payloads, source, uuid, clock, d);
    if k < n {
      EntriesLength(lib, init, source, uuid, clock, d);
      EntriesAt(lib, init, source, uuid, clock, d, k);
      assert init[k] == payloads[k];
    }
  }

  /** One entry per payload, in order: the k-th is the k-th payload
      normalised with `source` and the (d + k)-th draw. */
  lemma {:induction false} EntriesShape(lib: Library, payloads: seq<JsonValue>, source: string,
                                        uuid: nat -> string, clock: nat -> DateTime, d: nat)
    requires AllObjects(payloads)
    ensures var r := Entries(lib, payloads, source, uuid, clock, d);
            && |r| == |payloads|
            && forall k :: 0 <= k < |r| ==>
                 r[k] == ToLogEntry(lib, payloads[k], source, uuid(d + k), clock(d + k))
  {
    EntriesLength(lib, payloads, source, uuid, clock, d);
    forall k | 0 <= k < |payloads|
      ensures Entries(lib, payloads, source, uuid, clock, d)[k] ==
              ToLogEntry(lib, payloads[k], source, uuid(d + k), clock(d + k))
    {
      EntriesAt(lib, payloads, source, uuid, clock, d, k);
    }
  }

  /** Every entry carries the stream's source, and with distinct `uuid4`
      values no two entries share an id. */
  lemma {:induction false} EntryIds(lib: Library, payloads: seq<JsonValue>, source: string,
                 uuid: nat -> string, clock: nat -> DateTime, d: nat)
    requires AllObjects(payloads)
    ensures var r := Entries(lib, payloads, source, uuid, clock, d);
            forall k :: 0 <= k < |r| ==> r[k].source == source && r[k].id == uuid(d + k)
    ensures DistinctIds(uuid) ==>
            var r := Entries(lib, payloads, source, uuid, clock, d);
            forall i, j :: 0 <= i < j < |r| ==> r[i].id != r[j].id
  {
    EntriesShape(lib, payloads, source, uuid, clock, d);
  }

  /** The entries tailing `lines` with `source` adds, starting at draw
      `d` of the runtime. */
  function StreamEntries(lib: Library, lines: seq<string>, source: string,
                         uuid: nat -> string, clock: nat -> DateTime, d: nat): seq<LogEntry>
  {
    ScanObjects(lib, lines);
    Entries(lib, ScanLines(lib, lines).payloads, source, uuid, clock, d)
  }

  /** The store after a stream has been tailed with `source`, starting at
      draw `d` of the runtime. */
  function IngestLines(st: StoreState, maxHistory: int, reaction: (Subscriber, LogEntry) -> Reaction,
                       lib: Library, lines: seq<string>, source: string,
                       uuid: nat -> string, clock: nat -> DateTime, d: nat): StoreState
  {
    AddAllSpec(st, maxHistory, reaction, StreamEntries(lib, lines, source, uuid, clock, d))
  }

  /** The history after tailing holds the newest `max_history` of the old
      history followed by the stream's entries. */
  lemma {:induction false} IngestedHistory(st: StoreState, maxHistory: int, reaction: (Subscriber, LogEntry) -> Reaction,
                        lib: Library, lines: seq<string>, source: string,
                        uuid: nat -> string, clock: nat -> DateTime, d: nat)
    requires |st.history| <= Capacity(maxHistory)
    ensures IngestLines(st, maxHistory, reaction, lib, lines, source, uuid, clock, d).history
              == LastN(st.history + StreamEntries(lib, lines, source, uuid, clock, d), Capacity(maxHistory))
  {
    var es := StreamEntries(lib, lines, source, uuid, clock, d);
    AddAllSpecHistory(st, maxHistory, reaction, es);
    FifoLaw(st.history, maxHistory, es);
  }

  /** How a Metro start or tail ends when it does not run to the end of its
      stream. */
  datatype TailError =
    | SpawnFailed         // `subprocess.Popen` raised (no `npm`, no such directory)
    | AttachFailed        // `RuntimeError("Failed to attach to Metro stdout")`
    | PayloadNotAnObject  // `to_log_entry` called on a truthy non-dict payload
    | StreamFailed        // reading the next line raised

  /** The error a tail of `lines` ends with, if any; `streamError` says
      whether reading raised after the last line of `lines`. */
  function TailFailure(lib: Library, lines: seq<string>, streamError: bool): (r: Option<TailError>)
    ensures r == Some(PayloadNotAnObject) <==> HasNonObjectLine(lib, lines)
    ensures !HasNonObjectLine(lib, lines) && streamError ==> r == Some(StreamFailed)
    ensures r == None <==> !HasNonObjectLine(lib, lines) && !streamError
  {
    ScanCrashed(lib, lines);
    if ScanLines(lib, lines).crashed then Some(PayloadNotAnObject)
    else if streamError then Some(StreamFailed)
    else None
  }

  /** Between the two states, the stream `lines` was tailed into `store`
      with `source`, drawing one id and one time per entry from `rt`. */
  twostate predicate Ingested(store: LogStore, rt: Runtime, lines: seq<string>, source: string)
    reads store, rt
  {
    && store.Valid()
    && rt.draws == old(rt.draws) + |ScanLines(rt.lib, lines).payloads|
    && store.State() == IngestLines(old(store.State()), store.maxHistory, store.reaction, rt.lib, lines,
                                    source, rt.uuid, rt.clock, old(rt.draws))
  }

  /** The store and the runtime are as tailing a stream whose admitted
      payloads so far are `payloads` left them, from store state `st0` and
      draw `d0`. */
  ghost predicate Tailed(store: LogStore, rt: Runtime, source: string, st0: StoreState, d0: nat,
                         payloads: seq<JsonValue>)
    reads store, rt
  {
    && store.Valid()
    && AllObjects(payloads)
    && rt.draws == d0 + |payloads|
    && store.State() == AddAllSpec(st0, store.maxHistory, store.reaction,
                                   Entries(rt.lib, payloads, source, rt.uuid, rt.clock, d0))
  }

  /** `entry = to_log_entry(payload, source); store.add(entry)`: one more
      admitted payload. */
  method AddPayload(store: LogStore, rt: Runtime, payload: JsonValue, source: string,
                    ghost st0: StoreState, ghost d0: nat, ghost payloads: seq<JsonValue>)
    requires payload.JObject?
    requires Tailed(store, rt, source, st0, d0, payloads)
    modifies store, rt
    ensures Tailed(store, rt, source, st0, d0, payloads + [payload])
  {
    ghost var es := Entries(rt.lib, payloads, source, rt.uuid, rt.clock, d0);
    ghost var e := ToLogEntry(rt.lib, payload, source, rt.uuid(d0 + |payloads|), rt.clock(d0 + |payloads|));
    EntriesSnoc(rt.lib, payloads, payload, source, rt.uuid, rt.clock, d0);
    AddAllSpecSnoc(st0, store.maxHistory, store.reaction, es, e);
    var entry := rt.Normalize(payload, source);
    assert entry == e;
    store.Add(entry);
  }

  /** One pass of the body of the `_tail` loop, in both tailers: parse
      `line`, skip a falsy payload, or normalise it and add the entry.
      Returns how the line was classified; only an admitted line draws from
      the runtime and changes the store. */
  method FeedLine(store: LogStore, rt: Runtime, line: string, source: string,
                  ghost st0: StoreState, ghost d0: nat, ghost payloads: seq<JsonValue>)
    returns (admission: Admission)
    requires Tailed(store, rt, source, st0, d0, payloads)
    modifies store, rt
    ensures admission == LineAdmission(rt.lib, line)
    ensures Tailed(store, rt, source, st0, d0, if admission.Admit? then payloads + [admission.payload] else payloads)
    ensures !admission.Admit? ==> rt.draws == old(rt.draws) && store.State() == old(store.State())
  {
    admission := Classify(ParseDiagnosticsLine(rt.lib, line));
    if admission.Admit? {
      AddPayload(store, rt, admission.payload, source, st0, d0, payloads);
    }
  }

  /** The `for line in lines` loop of `_tail`, in both tailers. Returns
      whether it stopped at a payload `to_log_entry` raises on. */
  method FeedLines(store: LogStore, rt: Runtime, lines: seq<string>, source: string) returns (crashed: bool)
    requires store.Valid()
    modifies store, rt
    ensures Ingested(store, rt, lines, source)
    ensures crashed == ScanLines(rt.lib, lines).crashed
  {
    ghost var st0 := store.State();
    ghost var d0 := rt.draws;
    ghost var payloads: seq<JsonValue> := [];
    ghost var adms := Admissions(rt.lib, lines);
    AdmissionsLength(rt.lib, lines);
    var i := 0;
    while i < |lines|
      invariant 0 <= i <= |lines|
      invariant ScanAdmissions(adms[..i]) == Scan(payloads, false)
      invariant Tailed(store, rt, source, st0, d0, payloads)
    {
      var admission := FeedLine(store, rt, lines[i], source, st0, d0, payloads);
      AdmissionsAt(rt.lib, lines, i);
      ScanStep(adms, i);
      if admission.Admit? {
        payloads := payloads + [admission.payload];
      } else if admission.NotAnObject? {
        ScanStopsAt(adms, i);
        return true;
      }
      i := i + 1;
    }
    assert adms[..i] == adms;
    crashed := false;
  }

  // ---------------------------------------------------------------------
  // The blocking tailer

  datatype TailOutcome = Completed | Raised(error: TailError)

  /** `MetroTail`: tails on the caller's thread; every error propagates. */
  class MetroTail {
    const store: LogStore
    var proc: Option<ChildProcess>

    constructor (store: LogStore)
      ensures this.store == store && proc == None
    {
      this.store := store;
      proc := None;
    }

    /** `_tail(lines, source)`: `lines` is what was read before the stream
        ended, or before reading raised when `streamError` holds. */
    method Tail(lines: seq<string>, streamError: bool, source: string, rt: Runtime) returns (outcome: TailOutcome)
      requires store.Valid()
      modifies store, rt
      ensures Ingested(store, rt, lines, source)
      ensures outcome == match TailFailure(rt.lib, lines, streamError)
                         case None => Completed
                         case Some(err) => Raised(err)
    {
      var _ := FeedLines(store, rt, lines, source);
      outcome := match TailFailure(rt.lib, lines, streamError)
                 case None => Completed
                 case Some(err) => Raised(err);
    }

    /** `tail_iter(lines, source="stdin")`. */
    method TailIter(lines: seq<string>, streamError: bool, rt: Runtime, source: string := StdinSource)
      returns (outcome: TailOutcome)
      requires store.Valid()
      modifies store, rt
      ensures Ingested(store, rt, lines, source)
      ensures outcome == match TailFailure(rt.lib, lines, streamError)
                         case None => Completed
                         case Some(err) => Raised(err)
    {
      outcome := Tail(lines, streamError, source, rt);
    }

    /** `start(project_dir)`: spawn `npm run start` in the project and tail
        its output, tagged "metro", until it ends. `spawnOk` says whether
        `Popen` succeeds; `output` is what the child writes before its
        stream ends (or fails, with `streamError`). */
    method Start(projectDir: string, spawnOk: bool, stdoutAttached: bool, output: seq<string>, streamError: bool,
                 rt: Runtime)
      returns (outcome: TailOutcome)
      requires store.Valid()
      modifies this, store, rt
      ensures !spawnOk ==>
                && outcome == Raised(SpawnFailed) && proc == old(proc)
                && store.State() == old(store.State()) && rt.draws == old(rt.draws)
      ensures spawnOk ==> proc.Some? && fresh(proc.value)
      ensures spawnOk ==> proc.value.command == NpmStart && proc.value.cwd == projectDir
      ensures spawnOk ==> proc.value.stdoutAttached == stdoutAttached
      ensures spawnOk ==> proc.value.alive && proc.value.terminateRequests == 0
      ensures spawnOk && !stdoutAttached ==>
                outcome == Raised(AttachFailed) && store.State() == old(store.State()) && rt.draws == old(rt.draws)
      ensures spawnOk && stdoutAttached ==>
                && Ingested(store, rt, output, MetroSource)
                && outcome == match TailFailure(rt.lib, output, streamError)
                              case None => Completed
                              case Some(err) => Raised(err)
    {
      if !spawnOk {
        return Raised(SpawnFailed);
      }
      var child := new ChildProcess.Spawn(NpmStart, projectDir, stdoutAttached);
      proc := Some(child);
      if !stdoutAttached {
        return Raised(AttachFailed);
      }
      outcome := Tail(output, streamError, MetroSource, rt);
    }

    /** `stop()`: terminate the child if there is one and it is alive. */
    method Stop()
      modifies if proc.Some? then {proc.value} else {}
      ensures TerminatedIfAlive(proc)
    {
      TerminateIfAlive(proc);
    }
  }
}
