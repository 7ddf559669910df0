/** What the two intake paths make of the body of a completion message. */
module Intake {
  import opened Options
  import opened Json
  import opened Contracts
  import CvScoring

  // ---- canonical field names -------------------------------------------------------------------

  datatype Alias = Alias(source: string, target: string)

  const ALIASES: seq<Alias> := [
    Alias("runId", "run_id"),
    Alias("durationMs", "duration_ms"),
    Alias("tokensPrompt", "tokens_prompt"),
    Alias("tokensCompletion", "tokens_completion"),
    Alias("errorMessage", "error_message"),
    Alias("correlationId", "correlation_id"),
    Alias("traceParent", "traceparent")]

  /** The alias of a canonical name among the first n. */
  function AliasOf(key: string, n: nat): Option<string>
    requires n <= |ALIASES|
  {
    if n == 0 then None
    else if ALIASES[n - 1].target == key then Some(ALIASES[n - 1].source)
    else AliasOf(key, n - 1)
  }

  /** What a reader of the canonical message finds under a key: what the sender put there,
      or else what it put under the key's alias. */
  function Reads(fields: seq<Field>, key: string, n: nat): Option<Value>
    requires n <= |ALIASES|
  {
    if Find(fields, key).Some? || AliasOf(key, n).None? then Find(fields, key) else Find(fields, AliasOf(key, n).value)
  }

  lemma AliasesApart(m: nat, n: nat)
    requires m < |ALIASES| && n < |ALIASES|
    ensures ALIASES[m].source != ALIASES[n].target
    ensures m != n ==> ALIASES[m].target != ALIASES[n].target
  {
  }

  lemma {:induction false} AliasOfMeans(key: string, n: nat)
    requires n <= |ALIASES|
    ensures AliasOf(key, n).Some? <==> exists m :: 0 <= m < n && ALIASES[m].target == key
    ensures forall m :: 0 <= m < n && ALIASES[m].target == key ==> AliasOf(key, n) == Some(ALIASES[m].source)
  {
    if n > 0 {
      AliasOfMeans(key, n - 1);
      AliasStep(key, n);
    }
  }

  lemma AliasStep(key: string, n: nat)
    requires 0 < n <= |ALIASES|
    ensures AliasOf(key, n) == if ALIASES[n - 1].target == key then Some(ALIASES[n - 1].source) else AliasOf(key, n - 1)
    ensures forall m :: 0 <= m < n - 1 ==> ALIASES[m].target != ALIASES[n - 1].target
  {
    forall m | 0 <= m < n - 1 ensures ALIASES[m].target != ALIASES[n - 1].target {
      AliasesApart(m, n - 1);
    }
  }

  /** The message after the first n aliases were considered. */
  function Normalized(fields: seq<Field>, n: nat): seq<Field>
    requires n <= |ALIASES|
  {
    if n == 0 then fields
    else
      var before, alias := Normalized(fields, n - 1), ALIASES[n - 1];
      if Find(before, alias.source).Some? && Find(before, alias.target).None? then
        before + [Field(alias.target, Find(before, alias.source).value)]
      else before
  }

  function Canonical(fields: seq<Field>): seq<Field> {
    Normalized(fields, |ALIASES|)
  }

  lemma FindLast(fields: seq<Field>, f: Field, key: string)
    ensures Find(fields + [f], key) ==
      if Find(fields, key).Some? then Find(fields, key) else if f.key == key then Some(f.value) else None
  {
    assert [f][1..] == [];
    FindAppend(fields, [f], key);
  }

  lemma {:induction false} NormalizedReads(fields: seq<Field>, n: nat, key: string)
    requires n <= |ALIASES|
    ensures Find(Normalized(fields, n), key) == Reads(fields, key, n)
  {
    hide Find;
    if n > 0 {
      var alias := ALIASES[n - 1];
      NormalizedReads(fields, n - 1, key);
      NormalizedReads(fields, n - 1, alias.source);
      NormalizedReads(fields, n - 1, alias.target);
      AliasStep(key, n);
      AliasStep(alias.target, n);
      AliasOfMeans(alias.target, n - 1);
      SourceIsNoTarget(n - 1, n - 1);
      var found := Find(Normalized(fields, n - 1), alias.source);
      if found.Some? {
        FindLast(Normalized(fields, n - 1), Field(alias.target, found.value), key);
      }
    }
  }

  lemma SourceIsNoTarget(m: nat, n: nat)
    requires m < |ALIASES| && n <= |ALIASES|
    ensures AliasOf(ALIASES[m].source, n).None?
  {
    AliasOfMeans(ALIASES[m].source, n);
    forall k | 0 <= k < n ensures ALIASES[k].target != ALIASES[m].source {
      AliasesApart(m, k);
    }
  }

  /** A canonical message reads as the sender meant it: under each key what was sent under
      that key, else what was sent under its alias. Nothing sent is lost or overridden. */
  lemma CanonicalReads(fields: seq<Field>)
    ensures forall key :: Find(Canonical(fields), key) == Reads(fields, key, |ALIASES|)
    ensures forall key :: Find(fields, key).Some? ==> Find(Canonical(fields), key) == Find(fields, key)
  {
    hide Find;
    forall key ensures Find(Canonical(fields), key) == Reads(fields, key, |ALIASES|) {
      NormalizedReads(fields, |ALIASES|, key);
    }
  }

  /** Nothing is added when every alias sent came with its canonical name. */
  lemma {:induction false} NothingToAdd(fields: seq<Field>, n: nat)
    requires n <= |ALIASES|
    requires forall m :: 0 <= m < n && Find(fields, ALIASES[m].source).Some? ==> Find(fields, ALIASES[m].target).Some?
    ensures Normalized(fields, n) == fields
  {
    hide Find;
    if n > 0 {
      NothingToAdd(fields, n - 1);
    }
  }

  /** Canonicalising twice is canonicalising once, so a replayed message reads the same. */
  lemma CanonicalIdempotent(fields: seq<Field>)
    ensures Canonical(Canonical(fields)) == Canonical(fields)
  {
    hide Find, Normalized;
    CanonicalReads(fields);
    var c := Canonical(fields);
    forall m | 0 <= m < |ALIASES| && Find(c, ALIASES[m].source).Some? ensures Find(c, ALIASES[m].target).Some? {
      SourceIsNoTarget(m, |ALIASES|);
      AliasOfMeans(ALIASES[m].target, |ALIASES|);
      assert Find(c, ALIASES[m].source) == Reads(fields, ALIASES[m].source, |ALIASES|);
      assert Find(c, ALIASES[m].target) == Reads(fields, ALIASES[m].target, |ALIASES|);
    }
    NothingToAdd(c, |ALIASES|);
  }

  method NormalizeCompletionPayload(value: Value) returns (r: Outcome<seq<Field>>)
    ensures value.Obj? ==> r == Done(Canonical(value.fields))
    ensures !value.Obj? ==> r == Raised("TypeError")
  {
    if !value.Obj? {
      return Raised("TypeError");
    }
    var normalized := value.fields;
    for n := 0 to |ALIASES|
      invariant normalized == Normalized(value.fields, n)
    {
      var source, target := ALIASES[n].source, ALIASES[n].target;
      if Find(normalized, source).Some? && Find(normalized, target).None? {
        normalized := normalized + [Field(target, Find(normalized, source).value)];
      }
    }
    r := Done(normalized);
  }

  // ---- strict validation ------------------------------------------------------------------------

  /** An optional string: absent and null are the same, anything else but a string is wrong. */
  function OptionalText(fields: seq<Field>, key: string): Option<Option<string>> {
    match Find(fields, key)
    case None => Some(None)
    case Some(Null) => Some(None)
    case Some(Str(s)) => Some(Some(s))
    case _ => None
  }

  function Text(fields: seq<Field>, key: string): Option<string> {
    match Find(fields, key)
    case Some(Str(s)) => Some(s)
    case _ => None
  }

  /** Strict: neither booleans nor fractions are integers. */
  function Integer(fields: seq<Field>, key: string): Option<int> {
    match Find(fields, key)
    case Some(Int(n)) => Some(n)
    case _ => None
  }

  predicate OptionalInteger(fields: seq<Field>, key: string) {
    Find(fields, key).None? || Find(fields, key).value.Null? || Find(fields, key).value.Int?
  }

  function ParseArtifact(v: Value): Option<Artifact> {
    if !v.Obj? then None
    else
      var name, uri := Text(v.fields, "name"), Text(v.fields, "blob_uri");
      var mime, sha := OptionalText(v.fields, "mime"), OptionalText(v.fields, "sha256");
      if name.None? || uri.None? || mime.None? || sha.None? || !OptionalInteger(v.fields, "size_bytes") then None
      else Some(Artifact(name.value, uri.value, sha.value))
  }

  function ParseArtifacts(items: seq<Value>): Option<seq<Artifact>> {
    if items == [] then Some([])
    else
      var first, rest := ParseArtifact(items[0]), ParseArtifacts(items[1..]);
      if first.None? || rest.None? then None else Some([first.value] + rest.value)
  }

  function OptionalArtifacts(fields: seq<Field>): Option<Option<seq<Artifact>>> {
    match Find(fields, "artifacts")
    case None => Some(None)
    case Some(Null) => Some(None)
    case Some(Arr(items)) =>
      if ParseArtifacts(items).Some? then Some(Some(ParseArtifacts(items).value)) else None
    case _ => None
  }

  /** The fields both message kinds share. */
  datatype Report = Report(status: string, durationMs: int, tokensPrompt: int, tokensCompletion: int,
                           errorMessage: Option<string>, traceparent: Option<string>, artifacts: Option<seq<Artifact>>)

  function ParseReport(fields: seq<Field>): Option<Report> {
    var status, duration := Text(fields, "status"), Integer(fields, "duration_ms");
    var prompt, completion := Integer(fields, "tokens_prompt"), Integer(fields, "tokens_completion");
    var error, trace, artifacts := OptionalText(fields, "error_message"), OptionalText(fields, "traceparent"),
        OptionalArtifacts(fields);
    if status.None? || duration.None? || prompt.None? || completion.None? then None
    else if error.None? || trace.None? || artifacts.None? then None
    else Some(Report(status.value, duration.value, prompt.value, completion.value, error.value, trace.value,
        artifacts.value))
  }

  /** Trace metadata that comes with a delivery beside its body; empty when there is none. */
  datatype Carrier = Carrier(correlationId: string, traceparent: string)

  function FirstText(a: string, b: string): string {
    if a != "" then a else b
  }

  /** `str(x or "")` for a field of the message. */
  function TextOrEmpty(fields: seq<Field>, key: string): string {
    CvScoring.PyStr(Or(Get(fields, key), Str("")))
  }

  /** The event a canonical Service Bus message gives rise to; nothing when it is not valid. */
  function SbReport(fields: seq<Field>, carrier: Carrier): Option<RunResult> {
    var report, runId, correlation := ParseReport(fields), Text(fields, "run_id"), Text(fields, "correlation_id");
    if report.None? || runId.None? || correlation.None? then None
    else
      var r := report.value;
      Some(RunResult(runId.value, r.status, r.durationMs, r.tokensPrompt, r.tokensCompletion, r.errorMessage,
          correlation.value,
                     if carrier.traceparent != "" then Some(carrier.traceparent) else r.traceparent, r.artifacts))
  }

  function SbEvent(body: Value, carrier: Carrier): Option<RunResult> {
    if body.Obj? then SbReport(Canonical(body.fields), carrier) else None
  }

  /** The event a canonical HTTP report for a run gives rise to; nothing when it is not
      valid. The run id is the one in the address, whatever the body says. */
  function HttpReport(runId: string, fields: seq<Field>, carrier: Carrier): Option<RunResult> {
    var report, correlation := ParseReport(fields), OptionalText(fields, "correlation_id");
    if report.None? || correlation.None? then None
    else
      var r := report.value;
      var correlationId := FirstText(carrier.correlationId,
          FirstText(TextOrEmpty(fields, "correlation_id"), TextOrEmpty(fields, "correlationId")));
      var traceparent := FirstText(carrier.traceparent,
          FirstText(TextOrEmpty(fields, "traceparent"), TextOrEmpty(fields, "traceParent")));
      Some(RunResult(runId, r.status, r.durationMs, r.tokensPrompt, r.tokensCompletion, r.errorMessage, correlationId,
                     if traceparent != "" then Some(traceparent) else None,
                     if r.artifacts == Some([]) then None else r.artifacts))
  }

  function HttpEvent(runId: string, body: Value, carrier: Carrier): Option<RunResult> {
    if runId != "" && body.Obj? then HttpReport(runId, Canonical(body.fields), carrier) else None
  }

  /** Two paths, one effect: whatever Service Bus accepts for a run, HTTP accepts for it
      too, and the two events differ in their trace metadata at most, and in whether an
      empty list of artifacts is written out. */
  lemma TwoPathsOneEffect(body: Value, sb: Carrier, http: Carrier)
    requires SbEvent(body, sb).Some? && SbEvent(body, sb).value.runId != ""
    ensures var s := SbEvent(body, sb).value;
      && HttpEvent(s.runId, body, http).Some?
      && var h := HttpEvent(s.runId, body, http).value;
         h == s.(correlationId := h.correlationId, traceparent := h.traceparent, artifacts := h.artifacts)
         && ArtifactsOf(h) == ArtifactsOf(s)
  {
    hide Canonical, ParseReport, Find, TextOrEmpty;
  }

  function OrBlank(t: Option<string>): string {
    if t.Some? then t.value else ""
  }

  /** When the trace metadata agree, too. The correlation ids do when HTTP brings the same
      one in its header, or none while the message does not leave its canonical field blank
      and fill the alias. The trace contexts agree when the HTTP header has the one Service
      Bus settles on; without an HTTP header, when the canonical field is not blank and no
      other one came beside the message; and with neither of these, when what came beside
      the message is what stands under the alias. */
  lemma SameTrace(body: Value, sb: Carrier, http: Carrier)
    requires SbEvent(body, sb).Some? && SbEvent(body, sb).value.runId != ""
    requires HttpEvent(SbEvent(body, sb).value.runId, body, http).Some?
    ensures var s := SbEvent(body, sb).value;
      var h := HttpEvent(s.runId, body, http).value;
      h.correlationId == s.correlationId <==>
        if http.correlationId != "" then http.correlationId == s.correlationId
        else s.correlationId != "" || !Truthy(Get(body.fields, "correlationId"))
    ensures var s := SbEvent(body, sb).value;
      var h := HttpEvent(s.runId, body, http).value;
      var own := TextOrEmpty(Canonical(body.fields), "traceparent");
      OrBlank(h.traceparent) == OrBlank(s.traceparent) <==>
        if http.traceparent != "" then http.traceparent == OrBlank(s.traceparent)
        else if own != "" then sb.traceparent == "" || sb.traceparent == own
        else sb.traceparent == TextOrEmpty(body.fields, "traceParent")
  {
    CanonicalReads(body.fields);
    SourceIsNoTarget(5, |ALIASES|);
    SourceIsNoTarget(6, |ALIASES|);
    hide Canonical, Find, AliasOf, OptionalArtifacts;
    assert Get(Canonical(body.fields), "correlationId") == Get(body.fields, "correlationId");
    assert Get(Canonical(body.fields), "traceParent") == Get(body.fields, "traceParent");
    hide Reads;
    TextIsBlank(Canonical(body.fields), "correlationId");
  }

  lemma TextIsBlank(fields: seq<Field>, key: string)
    ensures TextOrEmpty(fields, key) == "" <==> !Truthy(Get(fields, key))
  {
    hide Find;
  }

  // ---- the poison test of the dead-letter replay ---------------------------------------------------

  /** `_parse_json_payload`. */
  function ParsedPayload(body: Option<Value>): seq<Field> {
    if body.Some? && body.value.Obj? then body.value.fields else []
  }

  /** Looks at the keys as they were sent, without canonicalising them first. */
  predicate IsPoison(body: Option<Value>) {
    !Truthy(Get(ParsedPayload(body), "run_id")) || !Truthy(Get(ParsedPayload(body), "status"))
  }

  /** Among the messages intake accepts, the replay throws away exactly those that name
      their run by the alias `runId` only, or leave the run id or the status blank. */
  lemma PoisonLosesAcceptable(body: Value, carrier: Carrier)
    requires SbEvent(body, carrier).Some?
    ensures var r := SbEvent(body, carrier).value;
      IsPoison(Some(body)) <==> Find(body.fields, "run_id").None? || r.runId == "" || r.status == ""
  {
    CanonicalReads(body.fields);
    AliasOfMeans("status", |ALIASES|);
    hide Canonical, Find, OptionalArtifacts, OptionalText, AliasOf;
  }

  const SAMPLE: seq<Field> := [
    Field("runId", Str("r1")), Field("status", Str("Succeeded")), Field("duration_ms", Int(1)),
    Field("tokens_prompt", Int(1)), Field("tokens_completion", Int(1)), Field("correlation_id", Str("c"))]

  lemma SamplePresent()
    ensures forall k :: 0 <= k < |SAMPLE| ==> Find(SAMPLE, SAMPLE[k].key) == Some(SAMPLE[k].value)
  {
    assert DistinctKeys(SAMPLE);
    hide Find;
    forall k | 0 <= k < |SAMPLE| ensures Find(SAMPLE, SAMPLE[k].key) == Some(SAMPLE[k].value) {
      FindMember(SAMPLE, SAMPLE[k].key);
    }
  }

  lemma SampleAbsent(key: string)
    requires forall k :: 0 <= k < |SAMPLE| ==> SAMPLE[k].key != key
    ensures Find(SAMPLE, key).None?
  {
    hide Find;
    FindMember(SAMPLE, key);
  }

  lemma AliasAt(m: nat)
    requires m < |ALIASES|
    ensures AliasOf(ALIASES[m].target, |ALIASES|) == Some(ALIASES[m].source)
  {
    hide *;
    AliasOfMeans(ALIASES[m].target, |ALIASES|);
  }

  lemma CanonicalSample()
    ensures var c := Canonical(SAMPLE);
      && Text(c, "run_id") == Some("r1") && Text(c, "status") == Some("Succeeded")
          && Text(c, "correlation_id") == Some("c")
      && Integer(c, "duration_ms") == Integer(c, "tokens_prompt") == Integer(c, "tokens_completion") == Some(1)
      && OptionalText(c, "error_message") == Some(None) && OptionalText(c, "traceparent") == Some(None)
      && OptionalArtifacts(c) == Some(None)
    ensures Find(SAMPLE, "run_id").None?
  {
    hide Canonical, Find, AliasOf, ParseArtifacts, ParseArtifact;
    CanonicalReads(SAMPLE);
    SamplePresent();
    assert SAMPLE[0].key == "runId" && SAMPLE[1].key == "status" && SAMPLE[2].key == "duration_ms";
    assert SAMPLE[3].key == "tokens_prompt" && SAMPLE[4].key == "tokens_completion"
        && SAMPLE[5].key == "correlation_id";
    SampleAbsent("run_id");
    AliasAt(0);
    SampleAbsent("error_message");
    SampleAbsent("errorMessage");
    AliasAt(4);
    SampleAbsent("traceparent");
    SampleAbsent("traceParent");
    AliasAt(6);
    SampleAbsent("artifacts");
    AliasOfMeans("artifacts", |ALIASES|);
  }

  /** Such a message exists: it is accepted on arrival and thrown away by the replay. */
  lemma AliasedMessageIsLost()
    ensures SbEvent(Obj(SAMPLE), Carrier("", "")).Some? && IsPoison(Some(Obj(SAMPLE)))
  {
    hide Canonical, Find, AliasOf, ParseArtifacts, OptionalText, OptionalArtifacts, Integer, IsPoison, Text;
    CanonicalSample();
    PoisonLosesAcceptable(Obj(SAMPLE), Carrier("", ""));
  }
}
