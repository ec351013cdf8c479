/** The entry normalizer (core/ingest.py): finding the diagnostics marker in
    a text line, decoding what follows it, and building a LogEntry from a
    decoded payload with per-field defaults. */
module Ingest {
  import opened Json
  import opened LogTypes

  /** The literal marker, case-sensitive and with its trailing space. */
  const DiagnosticsPrefix: string := "[Diagnostics] "

  /** The library calls the normalizer makes, which the model does not
      define: `json.loads` (None where it raises JSONDecodeError),
      `datetime.fromisoformat` (None where it raises ValueError) and the
      text `str()` gives a float, list or dict. */
  datatype Library = Library(
    loads: string -> Option<JsonValue>,
    fromIsoFormat: string -> Option<DateTime>,
    render: JsonValue -> string)

  // ---------------------------------------------------------------------
  // str.find

  predicate OccursAt(s: string, pat: string, k: int) {
    0 <= k && k + |pat| <= |s| && s[k..k + |pat|] == pat
  }

  /** `k` is where `pat` first occurs in `s`. */
  predicate FirstOccurrence(s: string, pat: string, k: int) {
    OccursAt(s, pat, k) && forall j :: 0 <= j < k ==> !OccursAt(s, pat, j)
  }

  /** `s.find(pat, k)`: the first index at or after `k` where `pat`
      occurs, or -1 when there is none. */
  function FindFrom(s: string, pat: string, k: nat): (r: int)
    ensures r == -1 || (k <= r && OccursAt(s, pat, r))
    ensures r == -1 ==> forall j :: k <= j ==> !OccursAt(s, pat, j)
    ensures r != -1 ==> forall j :: k <= j < r ==> !OccursAt(s, pat, j)
    decreases |s| - k
  {
    if k + |pat| > |s| then -1
    else if s[k..k + |pat|] == pat then k
    else FindFrom(s, pat, k + 1)
  }

  /** `s.find(pat)`: -1 exactly when `pat` does not occur, otherwise the
      index of its first occurrence. */
  function Find(s: string, pat: string): (r: int)
    ensures r == -1 <==> forall j :: !OccursAt(s, pat, j)
    ensures r != -1 ==> FirstOccurrence(s, pat, r)
  {
    FindFrom(s, pat, 0)
  }

  lemma {:induction false} FirstOccurrenceUnique(s: string, pat: string, k1: int, k2: int)
    requires FirstOccurrence(s, pat, k1) && FirstOccurrence(s, pat, k2)
    ensures k1 == k2
  {
  }

  // ---------------------------------------------------------------------
  // str.strip

  /** The characters Python's `str.isspace` accepts. */
  predicate IsSpace(c: char) {
    || c == ' '
    || '\t' <= c <= '\r'
    || '\U{1c}' <= c <= '\U{1f}'
    || c == '\U{85}' || c == '\U{a0}' || c == '\U{1680}'
    || '\U{2000}' <= c <= '\U{200a}'
    || c == '\U{2028}' || c == '\U{2029}' || c == '\U{202f}'
    || c == '\U{205f}' || c == '\U{3000}'
  }

  /** `s.lstrip()`. */
  function StripLeading(s: string): string {
    if s != [] && IsSpace(s[0]) then StripLeading(s[1..]) else s
  }

  /** `s.rstrip()`. */
  function StripTrailing(s: string): string {
    if s != [] && IsSpace(s[|s| - 1]) then StripTrailing(s[..|s| - 1]) else s
  }

  /** `s.lstrip()` is the suffix of `s` left after dropping the leading
      whitespace. */
  lemma {:induction false} StripLeadingSpec(s: string)
    ensures |StripLeading(s)| <= |s| && StripLeading(s) == s[|s| - |StripLeading(s)|..]
    ensures StripLeading(s) != [] ==> !IsSpace(StripLeading(s)[0])
    ensures forall i :: 0 <= i < |s| - |StripLeading(s)| ==> IsSpace(s[i])
    decreases |s|
  {
    if s != [] && IsSpace(s[0]) {
      StripLeadingSpec(s[1..]);
      forall i | 1 <= i < |s| - |StripLeading(s)| ensures IsSpace(s[i]) {
        assert s[i] == s[1..][i - 1];
      }
    }
  }

  /** `s.rstrip()` is the prefix of `s` left after dropping the trailing
      whitespace. */
  lemma {:induction false} StripTrailingSpec(s: string)
    ensures |StripTrailing(s)| <= |s| && StripTrailing(s) == s[..|StripTrailing(s)|]
    ensures StripTrailing(s) != [] ==> !IsSpace(StripTrailing(s)[|StripTrailing(s)| - 1])
    ensures forall i :: |StripTrailing(s)| <= i < |s| ==> IsSpace(s[i])
    decreases |s|
  {
    if s != [] && IsSpace(s[|s| - 1]) {
      StripTrailingSpec(s[..|s| - 1]);
      forall i | |StripTrailing(s)| <= i < |s| - 1 ensures IsSpace(s[i]) {
        assert s[i] == s[..|s| - 1][i];
      }
    }
  }

  /** `r` is the slice of `s` starting at `i`, and all of `s` outside it is
      whitespace. */
  predicate IsStripOf(s: string, r: string, i: int) {
    && 0 <= i && i + |r| <= |s| && r == s[i..i + |r|]
    && (forall k :: 0 <= k < i ==> IsSpace(s[k]))
    && (forall k :: i + |r| <= k < |s| ==> IsSpace(s[k]))
  }

  /** `s.strip()`. */
  function Strip(s: string): string {
    StripTrailing(StripLeading(s))
  }

  /** `s.strip()` is the slice of `s` between its leading and trailing
      whitespace, and it neither starts nor ends with whitespace. */
  lemma {:induction false} StripSpec(s: string)
    ensures exists i :: IsStripOf(s, Strip(s), i)
    ensures Strip(s) != [] ==> !IsSpace(Strip(s)[0]) && !IsSpace(Strip(s)[|Strip(s)| - 1])
  {
    var t := StripLeading(s);
    var r := StripTrailing(t);
    var i := |s| - |t|;
    StripLeadingSpec(s);
    StripTrailingSpec(t);
    assert r == s[i..i + |r|];
    forall k | i + |r| <= k < |s| ensures IsSpace(s[k]) {
      assert s[k] == t[k - i];
    }
    assert IsStripOf(s, r, i) && Strip(s) == r;
    if r != [] {
      assert r[0] == t[0];
    }
  }

  lemma {:induction false} StripLeadingPadded(pre: string, body: string)
    requires forall k :: 0 <= k < |pre| ==> IsSpace(pre[k])
    requires body == [] || !IsSpace(body[0])
    ensures StripLeading(pre + body) == body
    decreases |pre|
  {
    if pre != [] {
      assert (pre + body)[1..] == pre[1..] + body;
      StripLeadingPadded(pre[1..], body);
    }
  }

  lemma {:induction false} StripTrailingPadded(body: string, post: string)
    requires forall k :: 0 <= k < |post| ==> IsSpace(post[k])
    requires body == [] || !IsSpace(body[|body| - 1])
    ensures StripTrailing(body + post) == body
    decreases |post|
  {
    if post != [] {
      assert (body + post)[..|body + post| - 1] == body + post[..|post| - 1];
      StripTrailingPadded(body, post[..|post| - 1]);
    }
  }

  /** Stripping removes exactly the whitespace padding around a text that
      neither starts nor ends with whitespace. */
  lemma {:induction false} StripPadded(pre: string, body: string, post: string)
    requires forall k :: 0 <= k < |pre| ==> IsSpace(pre[k])
    requires forall k :: 0 <= k < |post| ==> IsSpace(post[k])
    requires body != [] && !IsSpace(body[0]) && !IsSpace(body[|body| - 1])
    ensures Strip(pre + body + post) == body
  {
    assert pre + body + post == pre + (body + post);
    StripLeadingPadded(pre, body + post);
    StripTrailingPadded(body, post);
  }

  // ---------------------------------------------------------------------
  // parse_diagnostics_line

  /** The text `parse_diagnostics_line` hands to the decoder, or None when
      the line has no marker. */
  function MarkerPayload(line: string): Option<string> {
    var idx := Find(line, DiagnosticsPrefix);
    if idx == -1 then None else Some(Strip(line[idx + |DiagnosticsPrefix|..]))
  }

  /** The decoder is handed everything after the first marker, stripped,
      and nothing at all when the line has no marker. */
  lemma {:induction false} MarkerPayloadSpec(line: string)
    ensures MarkerPayload(line) == None <==> forall k :: !OccursAt(line, DiagnosticsPrefix, k)
    ensures forall k :: FirstOccurrence(line, DiagnosticsPrefix, k) ==>
              MarkerPayload(line) == Some(Strip(line[k + |DiagnosticsPrefix|..]))
  {
    var idx := Find(line, DiagnosticsPrefix);
    forall k | FirstOccurrence(line, DiagnosticsPrefix, k)
      ensures MarkerPayload(line) == Some(Strip(line[k + |DiagnosticsPrefix|..]))
    {
      assert idx != -1;
      FirstOccurrenceUnique(line, DiagnosticsPrefix, k, idx);
      assert MarkerPayload(line) == Some(Strip(line[idx + |DiagnosticsPrefix|..]));
    }
  }

  /** `parse_diagnostics_line`: no marker gives None; otherwise the result
      is exactly the decode of the stripped text after the first marker,
      whatever JSON value that is, and None when it is not valid JSON. */
  function ParseDiagnosticsLine(lib: Library, line: string): (r: Option<JsonValue>)
    ensures (forall k :: !OccursAt(line, DiagnosticsPrefix, k)) ==> r == None
    ensures forall k :: FirstOccurrence(line, DiagnosticsPrefix, k) ==>
              r == lib.loads(Strip(line[k + |DiagnosticsPrefix|..]))
  {
    MarkerPayloadSpec(line);
    match MarkerPayload(line)
    case None => None
    case Some(text) => lib.loads(text)
  }

  /** A line that carries the marker at its start and a JSON text padded
      with whitespace is decoded from exactly that text. */
  lemma {:induction false} ParseMarkedLine(lib: Library, body: string, post: string)
    requires body != [] && !IsSpace(body[0]) && !IsSpace(body[|body| - 1])
    requires forall k :: 0 <= k < |post| ==> IsSpace(post[k])
    ensures ParseDiagnosticsLine(lib, DiagnosticsPrefix + body + post) == lib.loads(body)
  {
    var line := DiagnosticsPrefix + body + post;
    assert line[0..|DiagnosticsPrefix|] == DiagnosticsPrefix;
    assert FirstOccurrence(line, DiagnosticsPrefix, 0);
    assert line[|DiagnosticsPrefix|..] == [] + body + post;
    StripPadded([], body, post);
  }

  /** The marker is case-sensitive and needs its trailing space. */
  lemma {:induction false} MarkerIsExact(lib: Library)
    ensures ParseDiagnosticsLine(lib, "[diagnostics] {}") == None
    ensures ParseDiagnosticsLine(lib, "[Diagnostics]{}") == None
  {
    var a := "[diagnostics] {}";
    forall k ensures !OccursAt(a, DiagnosticsPrefix, k) {
      if 0 <= k && k + |DiagnosticsPrefix| <= |a| {
        assert a[k..k + |DiagnosticsPrefix|][0] == a[k] && a[k..k + |DiagnosticsPrefix|][1] == a[k + 1];
        assert k == 0 || k == 1 || k == 2;
        assert a[k] != '[' || a[k + 1] != 'D';
      }
    }
    var b := "[Diagnostics]{}";
    forall k ensures !OccursAt(b, DiagnosticsPrefix, k) {
      if 0 <= k && k + |DiagnosticsPrefix| <= |b| {
        assert k == 0 || k == 1;
        assert b[k..k + |DiagnosticsPrefix|][0] == b[k] && b[k..k + |DiagnosticsPrefix|][13] == b[k + 13];
        assert b[k] != '[' || b[k + 13] != ' ';
      }
    }
  }

  // ---------------------------------------------------------------------
  // to_log_entry

  /** `timestamp.replace("Z", "+00:00")`. */
  function ReplaceZ(s: string): string {
    if s == [] then []
    else (if s[0] == 'Z' then "+00:00" else [s[0]]) + ReplaceZ(s[1..])
  }

  lemma {:induction false} ReplaceZAppend(a: string, b: string)
    ensures ReplaceZ(a + b) == ReplaceZ(a) + ReplaceZ(b)
    decreases |a|
  {
    if a != [] {
      var head := if a[0] == 'Z' then "+00:00" else [a[0]];
      assert (a + b)[0] == a[0];
      assert (a + b)[1..] == a[1..] + b;
      ReplaceZAppend(a[1..], b);
      calc {
        ReplaceZ(a + b);
        head + ReplaceZ(a[1..] + b);
        head + (ReplaceZ(a[1..]) + ReplaceZ(b));
        (head + ReplaceZ(a[1..])) + ReplaceZ(b);
        ReplaceZ(a) + ReplaceZ(b);
      }
    } else {
      assert a + b == b;
    }
  }

  /** After the rewrite no `Z` is left. */
  lemma {:induction false} ReplaceZRemovesZ(s: string)
    ensures 'Z' !in ReplaceZ(s)
    decreases |s|
  {
    if s != [] { ReplaceZRemovesZ(s[1..]); }
  }

  /** A text without `Z` is left as it is. */
  lemma {:induction false} ReplaceZWithoutZ(s: string)
    requires 'Z' !in s
    ensures ReplaceZ(s) == s
    decreases |s|
  {
    if s != [] {
      assert 'Z' !in s[1..] by { assert forall c :: c in s[1..] ==> c in s; }
      ReplaceZWithoutZ(s[1..]);
    }
  }

  /** `payload.get("ts") or payload.get("timestamp")`. */
  function TimestampField(p: map<string, JsonValue>): Option<JsonValue> {
    if "ts" in p && Truthy(p["ts"]) then Some(p["ts"]) else Get(p, "timestamp")
  }

  /** The resolved timestamp: the parse of the selected field when it is a
      string that `fromisoformat` accepts after the `Z` rewrite, else the
      injected current time. */
  function ResolveTimestamp(lib: Library, p: map<string, JsonValue>, now: DateTime): DateTime {
    match TimestampField(p)
    case Some(JString(t)) =>
      (match lib.fromIsoFormat(ReplaceZ(t))
       case Some(dt) => dt
       case None => now)
    case _ => now
  }

  /** `to_log_entry(payload, source)`. The payload must be a dict, since the
      source calls `payload.get`; `id` is the fresh `uuid4()` and `now` the
      value `utcnow()` would give, both supplied by the caller. */
  function ToLogEntry(lib: Library, payload: JsonValue, source: string, id: string, now: DateTime): LogEntry
    requires payload.JObject?
  {
    var p := payload.fields;
    LogEntry(
      id,
      ResolveTimestamp(lib, p, now),
      if "level" in p then Str(lib.render, p["level"]) else "info",
      if "message" in p then Str(lib.render, p["message"]) else "",
      if "data" in p && p["data"].JObject? then Some(p["data"].fields) else None,
      source)
  }

  /** The fields of a normalised entry: the given id and source; level
      "info" and message "" when missing, otherwise their `str` (a string
      as it is, an int in decimal); `data` only when it is an object; the
      timestamp either the injected time or a parse of the selected
      timestamp field. */
  lemma {:induction false} ToLogEntryFields(lib: Library, payload: JsonValue, source: string, id: string, now: DateTime)
    requires payload.JObject?
    ensures var p := payload.fields;
            var e := ToLogEntry(lib, payload, source, id, now);
            && e.id == id && e.source == source
            && ("level" !in p ==> e.level == "info")
            && ("level" in p && p["level"].JString? ==> e.level == p["level"].s)
            && ("level" in p && p["level"].JInt? ==> DecimalValue(e.level) == p["level"].i)
            && ("message" !in p ==> e.message == "")
            && ("message" in p && p["message"].JString? ==> e.message == p["message"].s)
            && ("message" in p && p["message"].JInt? ==> DecimalValue(e.message) == p["message"].i)
            && (e.data.Some? <==> "data" in p && p["data"].JObject?)
            && (e.data.Some? ==> p["data"] == JObject(e.data.value))
            && (e.timestamp == now
                || exists t :: TimestampField(p) == Some(JString(t)) && lib.fromIsoFormat(ReplaceZ(t)) == Some(e.timestamp))
  {
    var p := payload.fields;
    if "level" in p { StrFaithful(lib.render, p["level"]); }
    if "message" in p { StrFaithful(lib.render, p["message"]); }
    var e := ToLogEntry(lib, payload, source, id, now);
    if e.timestamp != now {
      var t :| TimestampField(p) == Some(JString(t));
      assert lib.fromIsoFormat(ReplaceZ(t)) == Some(e.timestamp);
    }
  }

  /** Timestamp selection: `ts` when truthy, else `timestamp`; only a
      string is parsed, after the `Z` rewrite; anything else, and a string
      the parser refuses, gives the injected current time. */
  lemma {:induction false} TimestampSelection(lib: Library, payload: JsonValue, source: string, id: string, now: DateTime)
    requires payload.JObject?
    ensures var p := payload.fields;
            var e := ToLogEntry(lib, payload, source, id, now);
            && ("ts" in p && p["ts"].JString? && p["ts"].s != "" ==>
                  e.timestamp == (match lib.fromIsoFormat(ReplaceZ(p["ts"].s)) case Some(dt) => dt case None => now))
            && (!("ts" in p && Truthy(p["ts"])) && "timestamp" in p && p["timestamp"].JString? ==>
                  e.timestamp == (match lib.fromIsoFormat(ReplaceZ(p["timestamp"].s)) case Some(dt) => dt case None => now))
            && (!("ts" in p && Truthy(p["ts"])) && !("timestamp" in p && p["timestamp"].JString?) ==>
                  e.timestamp == now)
            && ("ts" in p && Truthy(p["ts"]) && !p["ts"].JString? ==> e.timestamp == now)
  {
  }

  /** The rewrite turns a trailing `Z` of a text without other `Z`s into
      the `+00:00` offset. */
  lemma {:induction false} ReplaceTrailingZ(stamp: string)
    requires 'Z' !in stamp
    ensures ReplaceZ(stamp + "Z") == stamp + "+00:00"
  {
    ReplaceZWithoutZ(stamp);
    ReplaceZAppend(stamp, "Z");
  }

  /** The example payload {"ts":"2024-01-01T00:00:00Z","level":"error",
      "message":"boom","data":{"k":1}}: level `error`, message `boom`, data
      {k: 1}, and the timestamp parsed from `2024-01-01T00:00:00+00:00`. */
  lemma {:induction false} WorkedExample(lib: Library, source: string, id: string, now: DateTime)
    ensures var stamp := "2024-01-01T00:00:00";
            var payload := JObject(map[
                              "ts" := JString(stamp + "Z"),
                              "level" := JString("error"),
                              "message" := JString("boom"),
                              "data" := JObject(map["k" := JInt(1)])]);
            var e := ToLogEntry(lib, payload, source, id, now);
            && e.level == "error" && e.message == "boom"
            && e.data == Some(map["k" := JInt(1)])
            && e.source == source && e.id == id
            && e.timestamp == (match lib.fromIsoFormat(stamp + "+00:00")
                               case Some(dt) => dt case None => now)
  {
    var stamp := "2024-01-01T00:00:00";
    assert forall i :: 0 <= i < |stamp| ==> stamp[i] != 'Z';
    ReplaceTrailingZ(stamp);
  }

  // ---------------------------------------------------------------------
  // The callers' rule: `if not payload: skip`, then `to_log_entry`.

  /** What a caller does with a decode result: a falsy or missing payload
      is skipped; a truthy dict becomes an entry; a truthy value of any
      other type makes `to_log_entry` raise (it has no `.get`). */
  datatype Admission = Skip | Admit(payload: JsonValue) | NotAnObject(payload: JsonValue)

  function Classify(p: Option<JsonValue>): (a: Admission)
    ensures a.Skip? <==> !PresentAndTruthy(p)
    ensures a.Admit? ==> p == Some(a.payload) && a.payload.JObject? && a.payload.fields != map[]
    ensures a.NotAnObject? ==> p == Some(a.payload) && Truthy(a.payload) && !a.payload.JObject?
  {
    if !PresentAndTruthy(p) then Skip
    else if p.value.JObject? then Admit(p.value)
    else NotAnObject(p.value)
  }
}
