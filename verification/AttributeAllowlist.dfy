/** The trace attribute allowlist: which attributes may leave the process, and in what form. */
module AttributeAllowlist {
  import opened Wrappers
  import opened PythonText

  const MAX_VALUE_LENGTH := 256

  const WORKFLOW_KEYS: set<string> := {
    "agent.workflow.version", "workflow.id", "workflow.run.id", "workflow.node", "workflow.route", "prompt.version",
    "agent.routing.instructions.version", "agent.answer.instructions.version", "routing.route", "routing.confidence",
    "agent.model.provider", "agent.model.name"}

  const TURN_KEYS: set<string> := {
    "support.intent", "support.confidence", "support.outcome", "support.reason.code", "support.policy.grounded",
    "support.message.length", "support.latency.ms", "support.tokens.input", "support.tokens.output",
    "support.tokens.total", "support.cost.usd", "support.retry.count"}

  const MODEL_KEYS: set<string> := {
    "model.latency.ms", "model.tokens.input", "model.tokens.output", "model.tokens.total", "model.cost.usd",
    "model.run.id"}

  const RETRIEVAL_KEYS: set<string> := {
    "retrieval.source", "retrieval.policy.slug", "retrieval.policy.version", "retrieval.latency.ms", "retrieval.score",
    "retrieval.query.hash", "retrieval.corpus.version", "retrieval.hit.ids", "retrieval.hit.ranks",
    "retrieval.hit.scores", "retrieval.fusion.k", "retrieval.dataset.version"}

  const TOOL_KEYS: set<string> := {
    "tool.name", "tool.order.id", "tool.latency.ms", "tool.error.code", "generation.error.code",
    "generation.finish.reason", "db.operation", "db.latency.ms", "db.error.code"}

  const POLICY_KEYS: set<string> := {
    "policy.version", "policy.decision", "policy.reason.code", "confirmation.required", "confirmation.verified",
    "escalation.ticket.id", "escalation.reason.code", "scenario.id", "scenario.category", "scenario.cause"}

  const EXPORT_KEYS: set<string> := {"langsmith.project", "service.name", "service.environment"}

  const TRACE_ATTRIBUTE_ALLOWLIST: set<string> :=
    WORKFLOW_KEYS + TURN_KEYS + MODEL_KEYS + RETRIEVAL_KEYS + TOOL_KEYS + POLICY_KEYS + EXPORT_KEYS

  /** What the sanitizer is given: the allowlist and the forbidden substrings of one recorder. */
  datatype Policy = Policy(allow: set<string>, forbidden: seq<string>)

  /** A Python object as the sanitizer tells them apart. */
  datatype Value = Text(text: string) | Flag(flag: bool) | Whole(whole: int) | Fraction(fraction: real)
                 | Nothing | Structured

  predicate ContainsForbidden(text: string, forbidden: seq<string>) {
    exists f | f in forbidden :: f != "" && Contains(text, f)
  }

  /** What one attribute becomes, or `None` when it is dropped. */
  function Clean(key: string, value: Value, policy: Policy): Option<Value> {
    if key !in policy.allow then None
    else match value
      case Text(t) =>
        if t == "" || ContainsForbidden(t, policy.forbidden) then None
        else Some(Text(if |t| <= MAX_VALUE_LENGTH then t else t[..MAX_VALUE_LENGTH]))
      case Nothing => None
      case Structured => None
      case _ => Some(value)
  }

  /** An attribute that may be stored and exported. */
  predicate Safe(key: string, value: Value, policy: Policy) {
    && key in policy.allow && !value.Nothing? && !value.Structured?
    && (value.Text? ==> 1 <= |value.text| <= MAX_VALUE_LENGTH && !ContainsForbidden(value.text, policy.forbidden))
  }

  ghost predicate AllSafe(attributes: map<string, Value>, policy: Policy) {
    forall k :: k in attributes ==> Safe(k, attributes[k], policy)
  }

  function Sanitized(attributes: map<string, Value>, policy: Policy): map<string, Value> {
    map k | k in attributes && Clean(k, attributes[k], policy).Some? :: Clean(k, attributes[k], policy).value
  }

  /** `sanitize_attributes`. */
  method SanitizeAttributes(attributes: map<string, Value>, policy: Policy) returns (sanitized: map<string, Value>)
    ensures sanitized == Sanitized(attributes, policy)
    ensures AllSafe(sanitized, policy)
  {
    sanitized := map[];
    var left := attributes.Keys;
    while left != {}
      invariant left <= attributes.Keys
      invariant forall k :: k in sanitized <==> k in attributes.Keys - left && Clean(k, attributes[k], policy).Some?
      invariant forall k :: k in sanitized ==> Clean(k, attributes[k], policy) == Some(sanitized[k])
      decreases left
    {
      var key :| key in left;
      left := left - {key};
      var value := attributes[key];
      if key !in policy.allow {
        continue;
      }
      if value.Nothing? {
        continue;
      }
      if value.Text? {
        if value.text == "" {
          continue;
        }
        if ContainsForbidden(value.text, policy.forbidden) {
          continue;
        }
        var kept := if |value.text| <= MAX_VALUE_LENGTH then value.text else value.text[..MAX_VALUE_LENGTH];
        sanitized := sanitized[key := Text(kept)];
      } else if !value.Structured? {
        sanitized := sanitized[key := value];
      }
    }
    SanitizedIsSafe(attributes, policy);
  }

  /** Whatever comes out is safe: cutting a text short cannot create a forbidden substring. */
  lemma CleanIsSafe(key: string, value: Value, policy: Policy)
    ensures var r := Clean(key, value, policy); r.Some? ==> Safe(key, r.value, policy)
  {
    if value.Text? && |value.text| > MAX_VALUE_LENGTH {
      var t := value.text;
      if ContainsForbidden(t[..MAX_VALUE_LENGTH], policy.forbidden) {
        var f :| f in policy.forbidden && f != "" && Contains(t[..MAX_VALUE_LENGTH], f);
        PrefixContains(t, MAX_VALUE_LENGTH, f);
      }
    }
  }

  /** What is dropped and what is kept: a text goes for a forbidden piece anywhere in it, and otherwise keeps
      its first 256 characters; numbers and flags stay as they are. */
  lemma CleanExactly(key: string, value: Value, policy: Policy)
    ensures Clean(key, value, policy).None? <==>
              || key !in policy.allow || value.Nothing? || value.Structured? || value == Text("")
              || (value.Text? && exists a, f, b :: f in policy.forbidden && f != "" && CutsInto(value.text, a, f, b))
    ensures var r := Clean(key, value, policy);
            r.Some? ==> if value.Text? then
                          r.value.Text? && r.value.text <= value.text
                          && |r.value.text| == if |value.text| < 256 then |value.text| else 256
                        else r.value == value
  {
    if value.Text? {
      var t := value.text;
      if ContainsForbidden(t, policy.forbidden) {
        var f :| f in policy.forbidden && f != "" && Contains(t, f);
        ContainsExactly(t, f);
        var a, b :| t == a + f + b;
        assert CutsInto(t, a, f, b);
      }
      if a, f, b :| f in policy.forbidden && f != "" && CutsInto(t, a, f, b) {
        ContainsExactly(t, f);
      }
    }
  }

  predicate CutsInto(text: string, a: string, piece: string, b: string) {
    text == a + piece + b
  }

  /** An attribute passes unchanged exactly when it is safe. */
  lemma CleanKeepsExactlySafe(key: string, value: Value, policy: Policy)
    ensures Clean(key, value, policy) == Some(value) <==> Safe(key, value, policy)
  {
    CleanIsSafe(key, value, policy);
  }

  lemma SanitizedIsSafe(attributes: map<string, Value>, policy: Policy)
    ensures AllSafe(Sanitized(attributes, policy), policy)
  {
    forall k | k in Sanitized(attributes, policy) ensures Safe(k, Sanitized(attributes, policy)[k], policy) {
      CleanIsSafe(k, attributes[k], policy);
    }
  }

  /** Sanitizing again changes nothing; safe attributes are exactly the fixed points. */
  lemma SanitizedIdempotent(attributes: map<string, Value>, policy: Policy)
    ensures Sanitized(Sanitized(attributes, policy), policy) == Sanitized(attributes, policy)
    ensures Sanitized(attributes, policy) == attributes <==> AllSafe(attributes, policy)
  {
    var once := Sanitized(attributes, policy);
    SanitizedIsSafe(attributes, policy);
    SafeUnchanged(once, policy);
    if AllSafe(attributes, policy) {
      SafeUnchanged(attributes, policy);
    }
  }

  lemma SafeUnchanged(attributes: map<string, Value>, policy: Policy)
    requires AllSafe(attributes, policy)
    ensures Sanitized(attributes, policy) == attributes
  {
    forall k | k in attributes ensures Clean(k, attributes[k], policy) == Some(attributes[k]) {
      CleanKeepsExactlySafe(k, attributes[k], policy);
    }
  }

  // ---------------------------------------------------------------------------
  // Mirrored keys
  // ---------------------------------------------------------------------------

  const MIRROR_PREFIX := "langsmith.metadata."

  function MirrorKey(key: string): string {
    MIRROR_PREFIX + key
  }

  /** No allowlisted key looks like a mirrored one, so a mirror never overwrites an attribute. */
  ghost predicate NoMirrorAllowed(policy: Policy) {
    forall k :: MirrorKey(k) !in policy.allow
  }

  /** A policy under which a mirror never overwrites an attribute. */
  type TracePolicy = p: Policy | NoMirrorAllowed(p) ghost witness Policy({}, [])

  /** The application's own allowlist is such a one. */
  lemma TraceAllowlistHasNoMirror(forbidden: seq<string>)
    ensures NoMirrorAllowed(Policy(TRACE_ATTRIBUTE_ALLOWLIST, forbidden))
  {
    forall key ensures MirrorKey(key) !in TRACE_ATTRIBUTE_ALLOWLIST {
      var k := MirrorKey(key);
      assert k[0] == 'l' && |k| >= 19;
      NotInFirstGroups(k);
      NotInMiddleGroups(k);
      NotInLastGroups(k);
    }
  }

  lemma NotInFirstGroups(k: string)
    requires |k| >= 19 && k[0] == 'l'
    ensures k !in WORKFLOW_KEYS && k !in TURN_KEYS
  {
  }

  lemma NotInMiddleGroups(k: string)
    requires |k| >= 19 && k[0] == 'l'
    ensures k !in MODEL_KEYS && k !in RETRIEVAL_KEYS
  {
  }

  lemma NotInLastGroups(k: string)
    requires |k| >= 19 && k[0] == 'l'
    ensures k !in TOOL_KEYS && k !in POLICY_KEYS && k !in EXPORT_KEYS
  {
  }

  lemma MirrorKeyInjective(a: string, b: string)
    requires MirrorKey(a) == MirrorKey(b)
    ensures a == b
  {
    assert MirrorKey(a)[|MIRROR_PREFIX|..] == a && MirrorKey(b)[|MIRROR_PREFIX|..] == b;
  }
}
