/** The tracer provider cache: one provider for each configuration fingerprint, checked against
    building afresh. */
module TracerCache {
  import opened Wrappers

  const DEFAULT_ENDPOINT := "https://api.smith.langchain.com/otel/v1/traces"

  datatype Environment = Local | Test | Production
  datatype ModelProvider = OpenAI | Anthropic

  /** The settings that tracing reads. */
  datatype Settings = Settings(
    otelEnabled: bool, langsmithTracing: bool, apiKey: Option<string>, project: string,
    endpoint: Option<string>, environment: Environment, provider: Option<ModelProvider>, model: Option<string>)

  datatype ExportConfig = ExportConfig(endpoint: string, apiKey: string, project: string)

  /** `langsmith_export_config`. */
  function LangSmithExport(s: Settings): Option<ExportConfig> {
    if !s.langsmithTracing then None
    else match s.apiKey
      case None => None
      case Some(key) => if key == "" then None else Some(ExportConfig(Endpoint(s), key, s.project))
  }

  /** `settings.langsmith_otlp_endpoint or default`. */
  function Endpoint(s: Settings): string {
    if s.endpoint.Some? && s.endpoint.value != "" then s.endpoint.value else DEFAULT_ENDPOINT
  }

  function EnvironmentName(e: Environment): string {
    match e case Local => "local" case Test => "test" case Production => "production"
  }

  function ProviderName(p: Option<ModelProvider>): string {
    match p case None => "" case Some(OpenAI) => "openai" case Some(Anthropic) => "anthropic"
  }

  function ModelName(m: Option<string>): string {
    match m case None => "" case Some(name) => name
  }

  function OrUnconfigured(name: string): string {
    if name == "" then "unconfigured" else name
  }

  datatype Processor = ConsoleProcessor | BatchProcessor(config: ExportConfig)

  datatype Labels = Labels(environment: string, provider: string, model: string, project: string)

  datatype Configured = Configured(processors: seq<Processor>, labels: Labels)

  function Processors(s: Settings): seq<Processor> {
    (if s.otelEnabled then [ConsoleProcessor] else [])
    + (match LangSmithExport(s) case None => [] case Some(e) => [BatchProcessor(e)])
  }

  /** Export to LangSmith needs the switch and a key. */
  predicate Exports(s: Settings) {
    s.langsmithTracing && s.apiKey.Some? && s.apiKey.value != ""
  }

  /** Which processors the settings ask for, read off their fields: a console exactly when it is enabled, a
      batch exporter exactly when the switch is on and there is a key, with this key, this project, and the
      endpoint of the settings or the default address. */
  lemma ProcessorsExactly(s: Settings)
    ensures ConsoleProcessor in Processors(s) <==> s.otelEnabled
    ensures forall e :: BatchProcessor(e) in Processors(s) <==>
              && Exports(s) && e.apiKey == s.apiKey.value && e.project == s.project
              && e.endpoint == (if s.endpoint.Some? && s.endpoint.value != "" then s.endpoint.value
                                else "https://api.smith.langchain.com/otel/v1/traces")
    ensures |Processors(s)| == (if s.otelEnabled then 1 else 0) + (if Exports(s) then 1 else 0)
  {
  }

  /** Nothing is built exactly when both outputs are off; otherwise every processor and the labels of the
      settings. */
  lemma FreshExactly(s: Settings)
    ensures Fresh(s).None? <==> !s.otelEnabled && !Exports(s)
    ensures Fresh(s).Some? ==>
              var c := Fresh(s).value;
              && c.processors == Processors(s) && c.labels.project == s.project
              && EnvironmentOf(c.labels.environment) == Some(s.environment)
              && ProviderOf(c.labels.provider) == s.provider
              && (c.labels.provider == "unconfigured" <==> s.provider.None?)
              && c.labels.model == if s.model.Some? && s.model.value != "" then s.model.value else "unconfigured"
  {
    ProcessorsExactly(s);
  }

  /** The labels read back. */
  function EnvironmentOf(name: string): Option<Environment> {
    if name == "local" then Some(Local) else if name == "test" then Some(Test)
    else if name == "production" then Some(Production) else None
  }

  function ProviderOf(name: string): Option<ModelProvider> {
    if name == "openai" then Some(OpenAI) else if name == "anthropic" then Some(Anthropic) else None
  }

  /** `_span_processors`: appends what is enabled. */
  method SpanProcessors(s: Settings) returns (processors: seq<Processor>)
    ensures processors == Processors(s)
    ensures processors == [] <==> !s.otelEnabled && !Exports(s)
  {
    processors := [];
    if s.otelEnabled {
      processors := processors + [ConsoleProcessor];
    }
    var langsmith := LangSmithExport(s);
    if langsmith.Some? {
      processors := processors + [BatchProcessor(langsmith.value)];
    }
  }

  /** What `build_trace_provider` builds from scratch. */
  function Fresh(s: Settings): Option<Configured> {
    if Processors(s) == [] then None
    else Some(Configured(Processors(s),
                         Labels(EnvironmentName(s.environment), OrUnconfigured(ProviderName(s.provider)),
                                OrUnconfigured(ModelName(s.model)), s.project)))
  }

  /** `build_trace_provider`. */
  method BuildTraceProvider(s: Settings) returns (provider: Option<Configured>)
    ensures provider == Fresh(s)
    ensures provider.None? <==> !s.otelEnabled && !Exports(s)
  {
    var processors := SpanProcessors(s);
    if processors == [] {
      return None;
    }
    var labels := Labels(EnvironmentName(s.environment), OrUnconfigured(ProviderName(s.provider)),
                         OrUnconfigured(ModelName(s.model)), s.project);
    var added: seq<Processor> := [];
    for i := 0 to |processors|
      invariant added == processors[..i]
    {
      added := added + [processors[i]];
    }
    assert processors[..|processors|] == processors;
    return Some(Configured(added, labels));
  }

  // ---------------------------------------------------------------------------
  // Fingerprints
  // ---------------------------------------------------------------------------

  function BoolName(b: bool): string { if b then "True" else "False" }

  /** The seven fields, in the order they are joined. */
  function Fields(s: Settings): seq<string> {
    var e := LangSmithExport(s);
    [BoolName(s.otelEnabled),
     if e.Some? then e.value.endpoint else "",
     if e.Some? then e.value.project else "",
     BoolName(e.Some?),
     EnvironmentName(s.environment),
     ProviderName(s.provider),
     ModelName(s.model)]
  }

  /** `"|".join(fields)`. */
  function JoinBars(fields: seq<string>): string {
    if fields == [] then ""
    else if |fields| == 1 then fields[0]
    else fields[0] + "|" + JoinBars(fields[1..])
  }

  function Fingerprint(s: Settings): string {
    JoinBars(Fields(s))
  }

  predicate BarFree(text: string) { '|' !in text }

  function FirstBar(text: string): nat {
    if text == "" || text[0] == '|' then 0 else 1 + FirstBar(text[1..])
  }

  lemma {:induction false} FirstBarAfter(a: string, x: string)
    requires BarFree(a)
    ensures FirstBar(a + "|" + x) == |a|
  {
    var s := a + "|" + x;
    if a != "" {
      assert s[0] == a[0] && s[1..] == a[1..] + "|" + x;
      FirstBarAfter(a[1..], x);
    }
  }

  lemma FirstField(a: string, x: string, b: string, y: string)
    requires BarFree(a) && BarFree(b) && a + "|" + x == b + "|" + y
    ensures a == b && x == y
  {
    var s := a + "|" + x;
    FirstBarAfter(a, x);
    FirstBarAfter(b, y);
    assert a == s[..|a|] && b == s[..|b|];
    assert x == s[|a| + 1..] && y == s[|b| + 1..];
  }

  /** Joining is injective when every field but the last is free of bars. */
  lemma {:induction false} JoinInjective(f: seq<string>, g: seq<string>)
    requires |f| == |g| > 0
    requires forall i :: 0 <= i < |f| - 1 ==> BarFree(f[i]) && BarFree(g[i])
    requires JoinBars(f) == JoinBars(g)
    ensures f == g
  {
    if |f| == 1 {
      assert f == [f[0]] && g == [g[0]];
    } else {
      FirstField(f[0], JoinBars(f[1..]), g[0], JoinBars(g[1..]));
      JoinInjective(f[1..], g[1..]);
      assert f == [f[0]] + f[1..] && g == [g[0]] + g[1..];
    }
  }

  predicate Ambiguous(endpoint: string, project: string) {
    '|' in project || (endpoint != "" && '|' in endpoint[1..])
  }

  /** The condition on settings under which fingerprints tell configurations apart. Only the endpoint
      and the project can spoil it, and only when they are exported: the other inner fields have fixed
      spellings, and the model name is last. A bar at the very start of the endpoint does no harm,
      because no other endpoint is empty. */
  predicate Unambiguous(s: Settings) {
    LangSmithExport(s).Some? ==> !Ambiguous(Endpoint(s), s.project)
  }

  /** The fields with a leading bar of the endpoint taken as a separator: all but the last are bar-free. */
  function Parts(s: Settings): seq<string> {
    var f := Fields(s);
    if f[1] != "" && f[1][0] == '|' then [f[0], "", f[1][1..]] + f[2..] else f
  }

  lemma PartsJoin(s: Settings)
    ensures JoinBars(Parts(s)) == Fingerprint(s)
  {
    var f := Fields(s);
    if f[1] != "" && f[1][0] == '|' {
      var x, rest := f[1][1..], JoinBars(f[2..]);
      assert f == [f[0]] + ([f[1]] + f[2..]);
      JoinCons(f[1], f[2..]);
      JoinCons(f[0], [f[1]] + f[2..]);
      assert Parts(s) == [f[0]] + ([""] + ([x] + f[2..]));
      JoinCons(x, f[2..]);
      JoinCons("", [x] + f[2..]);
      JoinCons(f[0], [""] + ([x] + f[2..]));
      assert f[1] + "|" + rest == "" + "|" + (x + "|" + rest);
    }
  }

  lemma PartsBarFree(s: Settings)
    requires Unambiguous(s)
    ensures forall i :: 0 <= i < |Parts(s)| - 1 ==> BarFree(Parts(s)[i])
  {
    var f := Fields(s);
    assert BarFree(f[0]) && BarFree(f[2]) && BarFree(f[3]) && BarFree(f[4]) && BarFree(f[5]);
    if f[1] != "" {
      assert f[1] == [f[1][0]] + f[1][1..];
    }
  }

  /** A prefix of bar-free fields can be read off a joined text. */
  lemma {:induction false} JoinPrefix(f: seq<string>, g: seq<string>, i: nat)
    requires i < |f| - 1 && i < |g| - 1 && JoinBars(f) == JoinBars(g)
    requires forall j :: 0 <= j <= i ==> BarFree(f[j]) && BarFree(g[j])
    ensures f[..i + 1] == g[..i + 1]
  {
    FirstField(f[0], JoinBars(f[1..]), g[0], JoinBars(g[1..]));
    if i > 0 {
      JoinPrefix(f[1..], g[1..], i - 1);
      assert f[..i + 1] == [f[0]] + f[1..][..i] && g[..i + 1] == [g[0]] + g[1..][..i];
    }
  }

  /** Only one of two unambiguous settings with a leading bar: their first five parts differ. */
  lemma LeadingBarTells(s: Settings, t: Settings)
    requires Unambiguous(s) && Unambiguous(t) && |Parts(s)| == 8 && |Parts(t)| == 7
    ensures Fingerprint(s) != Fingerprint(t)
  {
    PartsBarFree(s);
    PartsBarFree(t);
    PartsJoin(s);
    PartsJoin(t);
    PartsTell(s, t);
    if Fingerprint(s) == Fingerprint(t) {
      JoinPrefix(Parts(s), Parts(t), 4);
    }
  }

  lemma PartsTell(s: Settings, t: Settings)
    requires |Parts(s)| == 8 && |Parts(t)| == 7
    ensures Parts(s)[..5] != Parts(t)[..5]
  {
    var p, q := Parts(s), Parts(t);
    EnvironmentIsNoFlag(t.environment);
    assert p[1] == "" && p[4] == BoolName(true) && q[4] == EnvironmentName(t.environment);
    assert p[..5][4] == p[4] && q[..5][4] == q[4];
  }

  lemma EnvironmentIsNoFlag(e: Environment)
    ensures EnvironmentName(e) != BoolName(true)
  {
    assert EnvironmentName(e)[0] != 'T';
  }

  lemma SamePartsSameFields(s: Settings, t: Settings)
    requires Parts(s) == Parts(t)
    ensures Fields(s) == Fields(t)
  {
    var f, g := Fields(s), Fields(t);
    if |Parts(s)| == 8 {
      assert f[1] == "|" + Parts(s)[2] && g[1] == "|" + Parts(t)[2];
      assert f == [Parts(s)[0], f[1]] + Parts(s)[3..] && g == [Parts(t)[0], g[1]] + Parts(t)[3..];
    }
  }

  lemma FingerprintInjective(s: Settings, t: Settings)
    requires Unambiguous(s) && Unambiguous(t)
    ensures Fingerprint(s) == Fingerprint(t) <==> Fields(s) == Fields(t)
  {
    if Fingerprint(s) == Fingerprint(t) {
      PartsJoin(s);
      PartsJoin(t);
      PartsBarFree(s);
      PartsBarFree(t);
      if |Parts(s)| == |Parts(t)| {
        JoinInjective(Parts(s), Parts(t));
        SamePartsSameFields(s, t);
      } else if |Parts(s)| == 8 {
        LeadingBarTells(s, t);
      } else {
        LeadingBarTells(t, s);
      }
    }
  }

  /** Another endpoint and project with the same fingerprint, but another provider. */
  ghost predicate Collides(s: Settings, endpoint: string, project: string) {
    var t := s.(endpoint := Some(endpoint), project := project);
    endpoint != "" && Fingerprint(t) == Fingerprint(s) && Fields(t) != Fields(s) && Fresh(t) != Fresh(s)
  }

  /** A bar can move between endpoint and project: settings that are exported share their fingerprint
      with other settings of endpoint and project, whose provider differs, exactly when they are
      ambiguous. */
  lemma BarsCollide(s: Settings)
    requires LangSmithExport(s).Some?
    ensures (exists e, p :: Collides(s, e, p)) <==> Ambiguous(Endpoint(s), s.project)
  {
    var e, p := Endpoint(s), s.project;
    if '|' in p {
      var i :| 0 <= i < |p| && p[i] == '|';
      assert p == p[..i] + "|" + p[i + 1..];
      BarMoves(s, e, p[..i], p[i + 1..]);
      assert Collides(s, e + "|" + p[..i], p[i + 1..]);
    } else if '|' in e[1..] {
      var i :| 1 <= i < |e| && e[i] == '|';
      assert e == e[..i] + "|" + e[i + 1..];
      BarMoves(s.(endpoint := Some(e[..i]), project := e[i + 1..] + "|" + p), e[..i], e[i + 1..], p);
      var t := s.(endpoint := Some(e[..i]), project := e[i + 1..] + "|" + p);
      SameEndpoint(s, t.(endpoint := Some(e), project := p));
      assert Collides(s, e[..i], e[i + 1..] + "|" + p);
    } else {
      forall x, y ensures !Collides(s, x, y) {
        OtherSplits(s, x, y);
      }
    }
  }

  /** Fields and provider depend on the endpoint in use only. */
  lemma SameEndpoint(s: Settings, t: Settings)
    requires t == s.(endpoint := Some(Endpoint(s)))
    ensures Fields(s) == Fields(t) && Fresh(s) == Fresh(t)
  {
  }

  lemma BarMoves(s: Settings, a: string, b: string, c: string)
    requires LangSmithExport(s).Some? && Endpoint(s) == a && a != "" && s.project == b + "|" + c
    ensures var t := s.(endpoint := Some(a + "|" + b), project := c);
            Fingerprint(s) == Fingerprint(t) && Fields(s) != Fields(t) && Fresh(s) != Fresh(t)
  {
    var t := s.(endpoint := Some(a + "|" + b), project := c);
    var rest := Fields(s)[3..];
    assert Fields(s) == [Fields(s)[0], a, b + "|" + c] + rest;
    assert Fields(t) == [Fields(s)[0], a + "|" + b, c] + rest;
    MoveBar(Fields(s)[0], a, b, c, rest);
    assert |s.project| > |t.project|;
  }

  /** Unambiguous settings have no other split of endpoint and project. */
  lemma OtherSplits(s: Settings, x: string, y: string)
    requires LangSmithExport(s).Some? && !Ambiguous(Endpoint(s), s.project)
    ensures !Collides(s, x, y)
  {
    var t := s.(endpoint := Some(x), project := y);
    if x != "" && Fingerprint(t) == Fingerprint(s) {
      var e, p, first, rest := Endpoint(s), s.project, Fields(s)[0], Fields(s)[3..];
      assert Fields(s) == [first, e, p] + rest && Fields(t) == [first, x, y] + rest;
      JoinThree(first, e, p, rest);
      JoinThree(first, x, y, rest);
      SameSplit(first, e, p, x, y, JoinBars(rest));
    }
  }

  lemma SameSplit(first: string, e: string, p: string, x: string, y: string, r: string)
    requires e != "" && x != "" && !Ambiguous(e, p)
    requires first + "|" + (e + "|" + (p + "|" + r)) == first + "|" + (x + "|" + (y + "|" + r))
    ensures e == x && p == y
  {
    var a, b := e + "|" + p, x + "|" + y;
    var whole := first + "|" + a + "|" + r;
    assert whole == first + "|" + (e + "|" + (p + "|" + r)) && whole == first + "|" + b + "|" + r;
    assert |a| == |b| && a == whole[|first| + 1..|first| + 1 + |a|] && b == whole[|first| + 1..|first| + 1 + |b|];
    assert a == b && b[|x|] == '|';
    OnlyBar(e, p, |x|);
    assert e == a[..|e|] && x == b[..|e|] && p == a[|e| + 1..] && y == b[|e| + 1..];
  }

  lemma OnlyBar(e: string, p: string, i: nat)
    requires e != "" && !Ambiguous(e, p) && 1 <= i < |e + "|" + p|
    ensures (e + "|" + p)[i] == '|' <==> i == |e|
  {
    var a := e + "|" + p;
    if i < |e| {
      assert a[i] == e[i] == e[1..][i - 1];
    } else if i > |e| {
      assert a[i] == p[i - |e| - 1];
    }
  }

  lemma MoveBar(first: string, a: string, b: string, c: string, rest: seq<string>)
    requires rest != []
    ensures JoinBars([first, a, b + "|" + c] + rest) == JoinBars([first, a + "|" + b, c] + rest)
  {
    JoinThree(first, a, b + "|" + c, rest);
    JoinThree(first, a + "|" + b, c, rest);
    var r := JoinBars(rest);
    assert a + "|" + ((b + "|" + c) + "|" + r) == (a + "|" + b) + "|" + (c + "|" + r);
  }

  lemma JoinThree(a: string, b: string, c: string, rest: seq<string>)
    requires rest != []
    ensures JoinBars([a, b, c] + rest) == a + "|" + (b + "|" + (c + "|" + JoinBars(rest)))
  {
    JoinCons(c, rest);
    JoinCons(b, [c] + rest);
    JoinCons(a, [b] + ([c] + rest));
    assert [a] + ([b] + ([c] + rest)) == [a, b, c] + rest;
  }

  lemma JoinCons(a: string, rest: seq<string>)
    requires rest != []
    ensures JoinBars([a] + rest) == a + "|" + JoinBars(rest)
  {
    assert ([a] + rest)[1..] == rest;
  }

  // ---------------------------------------------------------------------------
  // Agreement of a cached provider with a fresh one
  // ---------------------------------------------------------------------------

  /** The processors without the key they authenticate with. */
  function WithoutKeys(ps: seq<Processor>): seq<Processor> {
    seq(|ps|, i requires 0 <= i < |ps| =>
      match ps[i]
      case ConsoleProcessor => ConsoleProcessor
      case BatchProcessor(e) => BatchProcessor(e.(apiKey := "")))
  }

  /** Same processors, endpoint and export project, environment and model labels. */
  predicate SameService(a: Configured, b: Configured) {
    && WithoutKeys(a.processors) == WithoutKeys(b.processors)
    && a.labels.(project := "") == b.labels.(project := "")
  }

  /** Settings with one fingerprint build the same service, apart from the key; and the project label
      agrees exactly when LangSmith export is on or the projects were equal anyway. */
  lemma SameFingerprintSameService(s: Settings, t: Settings)
    requires Unambiguous(s) && Unambiguous(t) && Fingerprint(s) == Fingerprint(t)
    ensures Coherent(Fresh(s), Fresh(t))
    ensures Fresh(s).Some? ==>
              (Fresh(s).value.labels == Fresh(t).value.labels <==> LangSmithExport(s).Some? || s.project == t.project)
  {
    FingerprintInjective(s, t);
    SameFieldsSameService(s, t);
  }

  lemma SameFieldsSameService(s: Settings, t: Settings)
    requires Fields(s) == Fields(t)
    ensures Coherent(Fresh(s), Fresh(t))
    ensures Fresh(s).Some? ==>
              (Fresh(s).value.labels == Fresh(t).value.labels <==> LangSmithExport(s).Some? || s.project == t.project)
  {
    assert Fields(s)[0] == Fields(t)[0] && Fields(s)[1] == Fields(t)[1] && Fields(s)[2] == Fields(t)[2];
    assert Fields(s)[3] == Fields(t)[3] && Fields(s)[4] == Fields(t)[4] && Fields(s)[5] == Fields(t)[5];
    assert Fields(s)[6] == Fields(t)[6];
    assert s.otelEnabled == t.otelEnabled by { BoolNames(s.otelEnabled, t.otelEnabled); }
    BoolNames(LangSmithExport(s).Some?, LangSmithExport(t).Some?);
  }

  /** Both configurations are off, or both serve alike. */
  predicate Coherent(a: Option<Configured>, b: Option<Configured>) {
    (a.Some? <==> b.Some?) && (a.Some? ==> SameService(a.value, b.value))
  }

  lemma {:induction false} SameLastField(fields: seq<string>, x: string, y: string)
    requires JoinBars(fields + [x]) == JoinBars(fields + [y])
    ensures x == y
  {
    if fields != [] {
      var a, b := fields[1..] + [x], fields[1..] + [y];
      assert fields + [x] == [fields[0]] + a && fields + [y] == [fields[0]] + b;
      JoinCons(fields[0], a);
      JoinCons(fields[0], b);
      var t := fields[0] + "|" + JoinBars(a);
      assert JoinBars(a) == t[|fields[0]| + 1..] && JoinBars(b) == t[|fields[0]| + 1..];
      SameLastField(fields[1..], x, y);
    }
  }

  /** A service shows every field but the model name, whose absence reads like one particular name. */
  lemma ServiceShowsFields(s: Settings, t: Settings)
    requires Fresh(s).Some? && Fresh(t).Some? && SameService(Fresh(s).value, Fresh(t).value)
    ensures Fields(s)[..6] == Fields(t)[..6]
  {
    var p, q := WithoutKeys(Processors(s)), WithoutKeys(Processors(t));
    assert |p| == |q| && p[0] == q[0] && p[|p| - 1] == q[|q| - 1];
    assert s.otelEnabled <==> p[0].ConsoleProcessor?;
    assert t.otelEnabled <==> q[0].ConsoleProcessor?;
    assert LangSmithExport(s).Some? <==> p[|p| - 1].BatchProcessor?;
    assert LangSmithExport(t).Some? <==> q[|q| - 1].BatchProcessor?;
    EnvironmentNames(s.environment, t.environment);
    ProviderNames(s.provider, t.provider);
  }

  lemma EnvironmentNames(a: Environment, b: Environment)
    ensures EnvironmentName(a) == EnvironmentName(b) ==> a == b
  {
    assert EnvironmentName(Local)[0] == 'l' && EnvironmentName(Test)[0] == 't' && EnvironmentName(Production)[0] == 'p';
  }

  lemma ProviderNames(a: Option<ModelProvider>, b: Option<ModelProvider>)
    ensures OrUnconfigured(ProviderName(a)) == OrUnconfigured(ProviderName(b)) ==> ProviderName(a) == ProviderName(b)
  {
    assert ProviderName(Some(OpenAI))[0] == 'o' && ProviderName(Some(Anthropic))[0] == 'a';
  }

  /** What a cache hit is worth: of two settings with one fingerprint, one serves as a fresh build for
      the other exactly when their fields are the same. */
  lemma HitServesExactly(s: Settings, t: Settings)
    requires Fingerprint(s) == Fingerprint(t)
    ensures Coherent(Fresh(s), Fresh(t)) <==> Fields(s) == Fields(t)
  {
    if Fields(s) == Fields(t) {
      SameFieldsSameService(s, t);
    } else if Fresh(s).None? && Fresh(t).None? {
      FingerprintInjective(s, t);
    } else if Coherent(Fresh(s), Fresh(t)) {
      ServiceShowsFields(s, t);
      assert Fields(s) == Fields(s)[..6] + [ModelName(s.model)] && Fields(t) == Fields(t)[..6] + [ModelName(t.model)];
      SameLastField(Fields(s)[..6], ModelName(s.model), ModelName(t.model));
    }
  }

  lemma BoolNames(a: bool, b: bool)
    ensures BoolName(a) == BoolName(b) ==> a == b
  {
    assert |BoolName(true)| == 4 && |BoolName(false)| == 5;
  }

  // ---------------------------------------------------------------------------
  // The cache
  // ---------------------------------------------------------------------------

  datatype Provider<C> = Provider(id: nat, configured: C)

  /** Cached providers have distinct ids, and of all providers ever built exactly those not in the
      cache were shut down. */
  ghost predicate Accounted<C>(cache: map<string, Provider<C>>, built: nat, shut: set<nat>) {
    && (forall f :: f in cache ==> cache[f].id < built && cache[f].id !in shut)
    && (forall f, g :: f in cache && g in cache && cache[f].id == cache[g].id ==> f == g)
    && (forall i :: i in shut ==> i < built)
    && (forall i: nat :: i < built && i !in shut ==> Live(cache, i))
  }

  ghost predicate Live<C>(cache: map<string, Provider<C>>, id: nat) {
    exists f :: f in cache && cache[f].id == id
  }

  lemma AccountNew<C>(cache: map<string, Provider<C>>, f: string, p: Provider<C>, built: nat, shut: set<nat>)
    requires Accounted(cache, built, shut) && f !in cache && p.id == built
    ensures Accounted(cache[f := p], built + 1, shut)
  {
    var after := cache[f := p];
    forall i: nat | i < built + 1 && i !in shut ensures Live(after, i) {
      if i == built {
        assert after[f].id == i;
      } else {
        var g :| g in cache && cache[g].id == i;
        assert g in after && after[g].id == i;
      }
    }
  }

  /** `_cache` with its two operations, for any fingerprint `key` and any builder `build`. `built`
      counts the providers ever built and `shut` holds the ids of those that were shut down. */
  class ProviderCache<S(==), C> {
    const key: S -> string
    const build: S -> Option<C>
    var cache: map<string, Provider<C>>
    var built: nat
    var shut: set<nat>
    ghost var origin: map<string, S>

    /** Every cached provider was built from settings with that fingerprint. */
    ghost predicate Valid()
      reads this
    {
      && origin.Keys == cache.Keys
      && (forall f :: f in cache ==> key(origin[f]) == f && build(origin[f]) == Some(cache[f].configured))
      && Accounted(cache, built, shut)
    }

    constructor (key: S -> string, build: S -> Option<C>)
      ensures Valid() && cache == map[] && built == 0
      ensures this.key == key && this.build == build
    {
      this.key, this.build := key, build;
      cache, built, shut, origin := map[], 0, {}, map[];
    }

    /** `build_tracer`. A hit builds nothing; a miss builds one provider, unless tracing is off. */
    method Build(s: S) returns (tracer: Option<Provider<C>>)
      requires Valid()
      modifies this
      ensures Valid() && shut == old(shut)
      ensures if key(s) in old(cache) then
                && tracer == Some(old(cache)[key(s)])
                && cache == old(cache) && origin == old(origin) && built == old(built)
              else if build(s).None? then
                tracer == None && cache == old(cache) && origin == old(origin) && built == old(built)
              else
                && tracer == Some(Provider(old(built), build(s).value)) && built == old(built) + 1
                && cache == old(cache)[key(s) := tracer.value] && origin == old(origin)[key(s) := s]
    {
      var fingerprint := key(s);
      if fingerprint in cache {
        return Some(cache[fingerprint]);
      }
      var configured := build(s);
      if configured.None? {
        return None;
      }
      var provider := Provider(built, configured.value);
      AccountNew(cache, fingerprint, provider, built, shut);
      cache := cache[fingerprint := provider];
      origin := origin[fingerprint := s];
      built := built + 1;
      return Some(provider);
    }

    /** `reset_trace_cache`: shuts every cached provider down, so every provider ever built is. */
    method Reset()
      requires Valid()
      modifies this
      ensures Valid() && cache == map[] && built == old(built)
      ensures forall i: nat :: i in shut <==> i < built
    {
      var left := cache.Keys;
      while left != {}
        invariant left <= cache.Keys
        invariant forall f :: f in cache.Keys - left ==> cache[f].id in shut
        invariant old(shut) <= shut && forall i :: i in shut ==> i < built
        modifies this`shut
        decreases left
      {
        var f :| f in left;
        left := left - {f};
        shut := shut + {cache[f].id};
      }
      forall i: nat | i < built ensures i in shut {
        if i !in old(shut) {
          assert Live(cache, i);
        }
      }
      cache, origin := map[], map[];
    }
  }

  /** `build_tracer` of the application. The result serves exactly as a provider built afresh would if
      and only if it is a fresh one or the settings it was built from have the same fields; unambiguous
      settings with the same fingerprint always have. */
  method BuildTracer(cache: ProviderCache<Settings, Configured>, s: Settings)
    returns (tracer: Option<Provider<Configured>>)
    requires cache.Valid() && forall t :: cache.key(t) == Fingerprint(t) && cache.build(t) == Fresh(t)
    modifies cache
    ensures cache.Valid() && cache.shut == old(cache.shut)
    ensures var hit := Fingerprint(s) in old(cache.cache);
            && (Coherent(ConfiguredOf(tracer), Fresh(s)) <==>
                  (hit ==> Fields(old(cache.origin)[Fingerprint(s)]) == Fields(s)))
            && (Unambiguous(s) && (hit ==> Unambiguous(old(cache.origin)[Fingerprint(s)])) ==>
                  Coherent(ConfiguredOf(tracer), Fresh(s)))
  {
    ghost var hit := Fingerprint(s) in cache.cache;
    ghost var from := if hit then cache.origin[Fingerprint(s)] else s;
    assert hit ==> cache.key(from) == Fingerprint(s)
                   && cache.build(from) == Some(cache.cache[Fingerprint(s)].configured);
    assert cache.key(s) == Fingerprint(s) && cache.build(s) == Fresh(s);
    HitServesExactly(from, s);
    tracer := cache.Build(s);
    if Unambiguous(s) && Unambiguous(from) {
      FingerprintInjective(from, s);
    }
  }

  function ConfiguredOf(tracer: Option<Provider<Configured>>): Option<Configured> {
    if tracer.Some? then Some(tracer.value.configured) else None
  }
}
