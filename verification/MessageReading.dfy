/** Which field of a completion message ends up where in the event it gives rise to. */
module MessageReading {
  import opened Options
  import opened Json
  import opened Contracts
  import opened Intake

  /** What a message says under a key, or else under its other name. */
  ghost function SaidUnder(f: seq<Field>, key: string, other: string): Option<Value> {
    if Find(f, key).Some? then Find(f, key) else Find(f, other)
  }

  /** Nothing and null are no text; a text is itself. */
  ghost predicate TextSaid(v: Option<Value>, text: Option<string>) {
    match text
    case None => v.None? || v == Some(Null)
    case Some(s) => v == Some(Str(s))
  }

  ghost predicate ArtifactSaid(v: Value, a: Artifact) {
    && v.Obj?
    && Find(v.fields, "name") == Some(Str(a.name)) && Find(v.fields, "blob_uri") == Some(Str(a.blobUri))
    && TextSaid(Find(v.fields, "sha256"), a.sha256)
    && (exists mime :: TextSaid(Find(v.fields, "mime"), mime))
    && (Find(v.fields, "size_bytes").Some? ==>
         Find(v.fields, "size_bytes").value.Null? || Find(v.fields, "size_bytes").value.Int?)
  }

  ghost predicate ItemsSaid(items: seq<Value>, list: seq<Artifact>) {
    |list| == |items| && forall k :: 0 <= k < |items| ==> ArtifactSaid(items[k], list[k])
  }

  ghost predicate ArtifactsSaid(v: Option<Value>, artifacts: Option<seq<Artifact>>) {
    match artifacts
    case None => v.None? || v == Some(Null)
    case Some(list) => v.Some? && v.value.Arr? && ItemsSaid(v.value.items, list)
  }

  /** The message says what the report has: each value under its own key or that key's other
      name, and of the right type. */
  ghost predicate ReportSaid(f: seq<Field>, r: Report) {
    && Find(f, "status") == Some(Str(r.status))
    && SaidUnder(f, "duration_ms", "durationMs") == Some(Int(r.durationMs))
    && SaidUnder(f, "tokens_prompt", "tokensPrompt") == Some(Int(r.tokensPrompt))
    && SaidUnder(f, "tokens_completion", "tokensCompletion") == Some(Int(r.tokensCompletion))
    && TextSaid(SaidUnder(f, "error_message", "errorMessage"), r.errorMessage)
    && TextSaid(SaidUnder(f, "traceparent", "traceParent"), r.traceparent)
    && ArtifactsSaid(Find(f, "artifacts"), r.artifacts)
  }

  // ---- the parser follows it ---------------------------------------------------------------------

  lemma AliasIs(key: string, m: nat)
    requires m < |ALIASES| && ALIASES[m].target == key
    ensures forall f: seq<Field> :: Find(Canonical(f), key) == SaidUnder(f, key, ALIASES[m].source)
  {
    hide Canonical, Find;
    AliasOfMeans(key, |ALIASES|);
    forall f: seq<Field> ensures Find(Canonical(f), key) == SaidUnder(f, key, ALIASES[m].source) {
      CanonicalReads(f);
    }
  }

  lemma NoAlias(key: string)
    requires forall m :: 0 <= m < |ALIASES| ==> ALIASES[m].target != key
    ensures forall f: seq<Field> :: Find(Canonical(f), key) == Find(f, key)
  {
    hide Canonical, Find;
    AliasOfMeans(key, |ALIASES|);
    forall f: seq<Field> ensures Find(Canonical(f), key) == Find(f, key) {
      CanonicalReads(f);
    }
  }

  /** Where a reader of the canonical message looks for each field. */
  lemma CanonicalNames(f: seq<Field>)
    ensures var c := Canonical(f);
      && Find(c, "run_id") == SaidUnder(f, "run_id", "runId")
      && Find(c, "duration_ms") == SaidUnder(f, "duration_ms", "durationMs")
      && Find(c, "tokens_prompt") == SaidUnder(f, "tokens_prompt", "tokensPrompt")
      && Find(c, "tokens_completion") == SaidUnder(f, "tokens_completion", "tokensCompletion")
      && Find(c, "error_message") == SaidUnder(f, "error_message", "errorMessage")
      && Find(c, "correlation_id") == SaidUnder(f, "correlation_id", "correlationId")
      && Find(c, "traceparent") == SaidUnder(f, "traceparent", "traceParent")
      && Find(c, "status") == Find(f, "status") && Find(c, "artifacts") == Find(f, "artifacts")
  {
    AliasNames();
    hide *;
    AliasIs("run_id", 0);
    AliasIs("duration_ms", 1);
    AliasIs("tokens_prompt", 2);
    AliasIs("tokens_completion", 3);
    AliasIs("error_message", 4);
    AliasIs("correlation_id", 5);
    AliasIs("traceparent", 6);
    NoAlias("status");
    NoAlias("artifacts");
  }

  lemma AliasNames()
    ensures |ALIASES| == 7
    ensures ALIASES[0] == Alias("runId", "run_id") && ALIASES[1] == Alias("durationMs", "duration_ms")
    ensures ALIASES[2] == Alias("tokensPrompt", "tokens_prompt")
    ensures ALIASES[3] == Alias("tokensCompletion", "tokens_completion")
    ensures ALIASES[4] == Alias("errorMessage", "error_message")
    ensures ALIASES[5] == Alias("correlationId", "correlation_id")
    ensures ALIASES[6] == Alias("traceParent", "traceparent")
    ensures forall m :: 0 <= m < |ALIASES| ==> ALIASES[m].target != "status" && ALIASES[m].target != "artifacts"
  {
  }

  lemma OptionalTextIs(f: seq<Field>, key: string, text: Option<string>)
    ensures OptionalText(f, key) == Some(text) <==> TextSaid(Find(f, key), text)
  {
    hide Find;
  }

  lemma ArtifactParsed(v: Value, a: Artifact)
    ensures ParseArtifact(v) == Some(a) <==> ArtifactSaid(v, a)
  {
    if v.Obj? {
      OptionalTextIs(v.fields, "sha256", a.sha256);
      var mime := OptionalText(v.fields, "mime");
      forall text ensures mime == Some(text) <==> TextSaid(Find(v.fields, "mime"), text) {
        OptionalTextIs(v.fields, "mime", text);
      }
      hide Find, OptionalText, TextSaid;
      assert mime.Some? ==> TextSaid(Find(v.fields, "mime"), mime.value);
    }
  }

  lemma {:induction false} ArtifactsParsed(items: seq<Value>, list: seq<Artifact>)
    ensures ParseArtifacts(items) == Some(list) <==> ItemsSaid(items, list)
  {
    hide ArtifactSaid, ParseArtifact;
    if items != [] && list != [] {
      ArtifactParsed(items[0], list[0]);
      ArtifactsParsed(items[1..], list[1..]);
      ItemsSplit(items, list);
      assert list == [list[0]] + list[1..];
      if ParseArtifacts(items[1..]).Some? {
        assert ParseArtifacts(items) == Some(list) ==>
          [ParseArtifact(items[0]).value] + ParseArtifacts(items[1..]).value == list;
        SameFirst(ParseArtifacts(items[1..]).value, list);
      }
    } else if items != [] {
      assert ParseArtifacts(items) != Some([]);
    }
  }

  lemma SameFirst(rest: seq<Artifact>, list: seq<Artifact>)
    requires list != []
    ensures forall a :: [a] + rest == list <==> a == list[0] && rest == list[1..]
  {
    assert list == [list[0]] + list[1..];
    forall a | [a] + rest == list ensures a == list[0] && rest == list[1..] {
      assert ([a] + rest)[0] == a && ([a] + rest)[1..] == rest;
    }
  }

  lemma ItemsSplit(items: seq<Value>, list: seq<Artifact>)
    requires items != [] && list != []
    ensures ItemsSaid(items, list) <==> ArtifactSaid(items[0], list[0]) && ItemsSaid(items[1..], list[1..])
  {
    hide ArtifactSaid;
    assert forall k :: 0 < k < |items| ==> items[k] == items[1..][k - 1];
    assert forall k :: 0 < k < |list| ==> list[k] == list[1..][k - 1];
    if ItemsSaid(items, list) {
      forall k | 0 <= k < |items[1..]| ensures ArtifactSaid(items[1..][k], list[1..][k]) {
        assert ArtifactSaid(items[k + 1], list[k + 1]);
      }
    }
  }

  lemma OptionalArtifactsAre(f: seq<Field>, artifacts: Option<seq<Artifact>>)
    ensures OptionalArtifacts(f) == Some(artifacts) <==> ArtifactsSaid(Find(f, "artifacts"), artifacts)
  {
    hide Find, ItemsSaid;
    var v := Find(f, "artifacts");
    if v.Some? && v.value.Arr? && artifacts.Some? {
      ArtifactsParsed(v.value.items, artifacts.value);
    }
    hide ParseArtifacts;
  }

  /** A report is parsed exactly when the message says it. */
  lemma ReportParsed(f: seq<Field>, r: Report)
    ensures ParseReport(Canonical(f)) == Some(r) <==> ReportSaid(f, r)
  {
    CanonicalNames(f);
    OptionalTextIs(Canonical(f), "error_message", r.errorMessage);
    OptionalTextIs(Canonical(f), "traceparent", r.traceparent);
    OptionalArtifactsAre(Canonical(f), r.artifacts);
    hide Canonical, Find, OptionalText, OptionalArtifacts, TextSaid, ArtifactsSaid, SaidUnder;
  }

  // ---- the events -----------------------------------------------------------------------------------

  ghost predicate ReportOf(e: RunResult, r: Report) {
    && e.status == r.status && e.durationMs == r.durationMs && e.tokensPrompt == r.tokensPrompt
    && e.tokensCompletion == r.tokensCompletion && e.errorMessage == r.errorMessage
  }

  /** What the Service Bus event is made of. */
  ghost predicate SbSays(f: seq<Field>, carrier: Carrier, e: RunResult, r: Report) {
    && ReportSaid(f, r) && ReportOf(e, r)
    && SaidUnder(f, "run_id", "runId") == Some(Str(e.runId))
    && SaidUnder(f, "correlation_id", "correlationId") == Some(Str(e.correlationId))
    && e.artifacts == r.artifacts
    && e.traceparent == if carrier.traceparent != "" then Some(carrier.traceparent) else r.traceparent
  }

  /** A message from Service Bus is an event exactly when it says all of it: nothing is read
      from any other field, and nothing else makes it invalid. */
  lemma SbEventReads(f: seq<Field>, carrier: Carrier, e: RunResult)
    ensures SbEvent(Obj(f), carrier) == Some(e) <==> exists r :: SbSays(f, carrier, e, r)
  {
    CanonicalNames(f);
    hide Canonical, Find, ParseReport, ReportSaid, SaidUnder;
    forall r ensures ParseReport(Canonical(f)) == Some(r) <==> ReportSaid(f, r) {
      ReportParsed(f, r);
    }
    var parsed := ParseReport(Canonical(f));
    if SbEvent(Obj(f), carrier) == Some(e) {
      assert SbSays(f, carrier, e, parsed.value);
    }
  }

  /** What the HTTP event is made of, trace metadata apart. */
  ghost predicate HttpSays(runId: string, f: seq<Field>, e: RunResult, r: Report) {
    && ReportSaid(f, r) && ReportOf(e, r)
    && e.runId == runId
    && e.artifacts == if r.artifacts == Some([]) then None else r.artifacts
  }

  /** The headers come first, then what the message says. */
  ghost predicate HttpTrace(f: seq<Field>, carrier: Carrier, e: RunResult) {
    && (carrier.correlationId != "" ==> e.correlationId == carrier.correlationId)
    && (carrier.traceparent != "" ==> e.traceparent == Some(carrier.traceparent))
    && (carrier.correlationId == "" ==>
         forall s :: s != "" && SaidUnder(f, "correlation_id", "correlationId") == Some(Str(s)) ==>
           e.correlationId == s)
    && (carrier.traceparent == "" ==>
         forall s :: s != "" && SaidUnder(f, "traceparent", "traceParent") == Some(Str(s)) ==> e.traceparent == Some(s))
  }

  lemma HttpTraceReads(runId: string, f: seq<Field>, carrier: Carrier)
    requires HttpEvent(runId, Obj(f), carrier).Some?
    ensures HttpTrace(f, carrier, HttpEvent(runId, Obj(f), carrier).value)
  {
    CanonicalNames(f);
    hide Canonical, Find, ParseReport, SaidUnder, OptionalText;
  }

  /** A report over HTTP is accepted exactly when its address names a run and it says all a
      report has, its correlation id being a text if there is one. */
  lemma HttpEventReads(runId: string, f: seq<Field>, carrier: Carrier)
    ensures HttpEvent(runId, Obj(f), carrier).Some? <==>
      && runId != ""
      && (exists r :: ReportSaid(f, r))
      && (exists text :: TextSaid(SaidUnder(f, "correlation_id", "correlationId"), text))
    ensures HttpEvent(runId, Obj(f), carrier).Some? ==>
      exists r :: HttpSays(runId, f, HttpEvent(runId, Obj(f), carrier).value, r)
    ensures HttpEvent(runId, Obj(f), carrier).Some? ==>
      HttpTrace(f, carrier, HttpEvent(runId, Obj(f), carrier).value)
  {
    if HttpEvent(runId, Obj(f), carrier).Some? {
      HttpTraceReads(runId, f, carrier);
    }
    hide HttpTrace;
    CanonicalNames(f);
    hide Canonical, Find, ParseReport, ReportSaid, SaidUnder, OptionalText, TextSaid, TextOrEmpty, FirstText;
    forall r ensures ParseReport(Canonical(f)) == Some(r) <==> ReportSaid(f, r) {
      ReportParsed(f, r);
    }
    forall text
      ensures OptionalText(Canonical(f), "correlation_id") == Some(text) <==>
        TextSaid(SaidUnder(f, "correlation_id", "correlationId"), text)
    {
      OptionalTextIs(Canonical(f), "correlation_id", text);
    }
    var parsed, correlation := ParseReport(Canonical(f)), OptionalText(Canonical(f), "correlation_id");
    if parsed.Some? && correlation.Some? {
      assert ReportSaid(f, parsed.value);
      assert TextSaid(SaidUnder(f, "correlation_id", "correlationId"), correlation.value);
    }
    if HttpEvent(runId, Obj(f), carrier).Some? {
      assert HttpSays(runId, f, HttpEvent(runId, Obj(f), carrier).value, parsed.value);
    }
  }
}
