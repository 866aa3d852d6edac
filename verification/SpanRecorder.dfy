/** The span recorder: sanitized spans around arbitrary nested code, a listener told of every start and
    end, and an optional tracer that receives a mirrored copy. */
module SpanRecorder {
  import opened Wrappers
  import opened Sequences
  import opened AttributeAllowlist

  // ---------------------------------------------------------------------------
  // One span
  // ---------------------------------------------------------------------------

  /** What a listener can read off a span. */
  datatype SpanState = SpanState(id: nat, name: string, attributes: map<string, Value>, error: Option<string>)

  /** A finished span as the tracer exports it. */
  datatype Export = Export(name: string, attributes: map<string, Value>, status: Option<string>)

  function Write(s: SpanState, key: string, value: Value, policy: Policy): SpanState {
    match Clean(key, value, policy)
    case None => s
    case Some(v) => s.(attributes := s.attributes[key := v])
  }

  function Fail(s: SpanState, code: string): SpanState {
    s.(error := Some(code))
  }

  /** Each stored attribute under its own key and under its mirrored key, and nothing else. */
  ghost predicate Mirrors(exported: map<string, Value>, attributes: map<string, Value>) {
    && (forall k :: k in attributes ==>
          && k in exported && exported[k] == attributes[k]
          && MirrorKey(k) in exported && exported[MirrorKey(k)] == attributes[k])
    && (forall x :: x in exported ==> x in attributes || exists k :: k in attributes && x == MirrorKey(k))
  }

  /** The exported form of a span, as the class below keeps it. */
  ghost predicate ExportOf(e: Export, s: SpanState) {
    e.name == s.name && e.status == s.error && Mirrors(e.attributes, s.attributes)
  }

  lemma MirrorsWrite(exported: map<string, Value>, attributes: map<string, Value>, key: string, v: Value,
                     policy: Policy)
    requires Mirrors(exported, attributes) && NoMirrorAllowed(policy)
    requires key in policy.allow && forall k :: k in attributes ==> k in policy.allow
    ensures Mirrors(exported[key := v][MirrorKey(key) := v], attributes[key := v])
  {
    var e, a := exported[key := v][MirrorKey(key) := v], attributes[key := v];
    forall k | k in a
      ensures k in e && e[k] == a[k] && MirrorKey(k) in e && e[MirrorKey(k)] == a[k]
    {
      if k != key && MirrorKey(k) == MirrorKey(key) {
        MirrorKeyInjective(k, key);
      }
    }
    forall x | x in e ensures x in a || exists k :: k in a && x == MirrorKey(k) {
      if x == MirrorKey(key) {
        assert key in a;
      } else if x != key && x !in a {
        assert x in exported;
        var k :| k in attributes && x == MirrorKey(k);
        assert k in a;
      }
    }
  }

  lemma SanitizedOne(key: string, value: Value, policy: Policy)
    ensures Sanitized(map[key := value], policy) ==
      match Clean(key, value, policy) case None => map[] case Some(v) => map[key := v]
  {
  }

  lemma WriteSafe(attributes: map<string, Value>, key: string, value: Value, policy: Policy)
    requires AllSafe(attributes, policy) && Clean(key, value, policy).Some?
    ensures AllSafe(attributes[key := Clean(key, value, policy).value], policy)
    ensures key in policy.allow && forall k :: k in attributes ==> k in policy.allow
  {
    CleanIsSafe(key, value, policy);
  }

  /** `TraceSpan` with its two subclasses: `traced` tells a wrapper of an exported span from a null
      span, and `otel` and `status` are what the wrapper wrote to the exported span. */
  class TraceSpan {
    const id: nat
    const name: string
    const policy: TracePolicy
    const traced: bool
    var attributes: map<string, Value>
    var error: Option<string>
    var otel: map<string, Value>
    var status: Option<string>

    ghost function State(): SpanState
      reads this
    {
      SpanState(id, name, attributes, error)
    }

    ghost predicate Valid()
      reads this
    {
      && AllSafe(attributes, policy)
      && (if traced then Mirrors(otel, attributes) && status == error else otel == map[] && status == None)
    }

    constructor (id: nat, name: string, policy: TracePolicy, traced: bool)
      ensures Valid() && State() == SpanState(id, name, map[], None)
      ensures this.policy == policy && this.traced == traced
    {
      this.id, this.name, this.policy, this.traced := id, name, policy, traced;
      attributes, error, otel, status := map[], None, map[], None;
    }

    method SetAttribute(key: string, value: Value) returns (accepted: map<string, Value>)
      requires Valid()
      modifies this`attributes, this`otel
      ensures Valid() && State() == Write(old(State()), key, value, policy)
      ensures accepted == Sanitized(map[key := value], policy)
    {
      accepted := SanitizeAttributes(map[key := value], policy);
      SanitizedOne(key, value, policy);
      ghost var stored := attributes;
      attributes := attributes + accepted;
      if traced {
        MirrorAccepted(key, accepted);
      }
      match Clean(key, value, policy) {
        case None =>
          assert attributes == stored;
        case Some(v) =>
          assert attributes == stored[key := v];
          WriteSafe(stored, key, value, policy);
          if traced {
            MirrorsWrite(old(otel), stored, key, v, policy);
          }
      }
    }

    /** Copies what was accepted to the exported span, under both keys. */
    method MirrorAccepted(ghost key: string, accepted: map<string, Value>)
      requires accepted.Keys <= {key}
      modifies this`otel
      ensures otel == if key in accepted then old(otel)[key := accepted[key]][MirrorKey(key) := accepted[key]]
                      else old(otel)
    {
      var left := accepted.Keys;
      while left != {}
        invariant left <= accepted.Keys
        invariant otel == if key in accepted.Keys - left
                          then old(otel)[key := accepted[key]][MirrorKey(key) := accepted[key]]
                          else old(otel)
        decreases left
      {
        var k :| k in left;
        assert k == key;
        left := left - {k};
        otel := otel[k := accepted[k]];
        otel := otel[MirrorKey(k) := accepted[k]];
      }
    }

    method SetError(code: string)
      requires Valid()
      modifies this
      ensures Valid() && State() == Fail(old(State()), code)
      ensures error == Some(code) && (traced ==> status == Some(code))
      ensures attributes == old(attributes) && otel == old(otel)
    {
      error := Some(code);
      if traced {
        status := Some(code);
      }
    }
  }

  // ---------------------------------------------------------------------------
  // Programs under the recorder
  // ---------------------------------------------------------------------------

  /** Code between a span's start and end. A write names an open span by how many spans are nested
      inside it; a `Guard` swallows an exception of its body. */
  datatype Act =
    | SetAttribute(depth: nat, key: string, value: Value)
    | SetError(depth: nat, code: string)
    | Span(name: string, attributes: map<string, Value>, body: seq<Act>)
    | Raise
    | Guard(body: seq<Act>)

  datatype Notice = Notice(span: SpanState, ended: bool)

  datatype Trace = Trace(stack: seq<SpanState>, notices: seq<Notice>, next: nat, raised: bool)

  function Touch(stack: seq<SpanState>, depth: nat, f: SpanState -> SpanState): seq<SpanState> {
    if depth < |stack| then stack[|stack| - 1 - depth := f(stack[|stack| - 1 - depth])] else stack
  }

  function Perform(act: Act, policy: Policy, stack: seq<SpanState>, next: nat): (t: Trace)
    ensures |t.stack| == |stack|
    decreases act, 1
  {
    match act
    case SetAttribute(depth, key, value) =>
      Trace(Touch(stack, depth, s => Write(s, key, value, policy)), [], next, false)
    case SetError(depth, code) => Trace(Touch(stack, depth, s => Fail(s, code)), [], next, false)
    case Raise => Trace(stack, [], next, true)
    case Guard(body) => PerformAll(body, policy, stack, next).(raised := false)
    case Span(name, attributes, body) =>
      var started := SpanState(next, name, Sanitized(attributes, policy), None);
      var t := PerformAll(body, policy, stack + [started], next + 1);
      var closed := t.stack[|stack|];
      Trace(t.stack[..|stack|], [Notice(started, false)] + t.notices + [Notice(closed, true)], t.next, t.raised)
  }

  function PerformAll(acts: seq<Act>, policy: Policy, stack: seq<SpanState>, next: nat): (t: Trace)
    ensures |t.stack| == |stack|
    decreases acts, 0
  {
    if acts == [] then Trace(stack, [], next, false)
    else
      var first := Perform(acts[0], policy, stack, next);
      if first.raised then first
      else
        var rest := PerformAll(acts[1..], policy, first.stack, first.next);
        rest.(notices := first.notices + rest.notices)
  }

  lemma PerformSpan(name: string, attributes: map<string, Value>, body: seq<Act>, policy: Policy,
                    stack: seq<SpanState>, started: SpanState, t: Trace, states: seq<SpanState>, ended: SpanState)
    requires started == SpanState(started.id, name, Sanitized(attributes, policy), None)
    requires t == PerformAll(body, policy, stack + [started], started.id + 1)
    requires t.stack == states + [ended]
    ensures Perform(Span(name, attributes, body), policy, stack, started.id)
         == Trace(states, [Notice(started, false)] + t.notices + [Notice(ended, true)], t.next, t.raised)
  {
    assert t.stack[..|stack|] == states;
  }

  // ---------------------------------------------------------------------------
  // Bracket structure
  // ---------------------------------------------------------------------------

  /** Reads a notice list as brackets: a start opens the next unused span, an end closes the span
      that was started last. */
  function Brackets(notices: seq<Notice>, open: seq<(nat, string)>, next: nat): Option<(seq<(nat, string)>, nat)> {
    if notices == [] then Some((open, next))
    else
      var n := notices[0];
      var tag := (n.span.id, n.span.name);
      if !n.ended then
        if tag.0 == next then Brackets(notices[1..], open + [tag], next + 1) else None
      else if open != [] && open[|open| - 1] == tag then Brackets(notices[1..], open[..|open| - 1], next)
      else None
  }

  lemma {:induction false} BracketsConcat(a: seq<Notice>, b: seq<Notice>, open: seq<(nat, string)>, next: nat)
    ensures Brackets(a + b, open, next) ==
      match Brackets(a, open, next) case None => None case Some(r) => Brackets(b, r.0, r.1)
    decreases a
  {
    if a == [] {
      assert a + b == b;
    } else {
      assert (a + b)[0] == a[0] && (a + b)[1..] == a[1..] + b;
      var tag := (a[0].span.id, a[0].span.name);
      if !a[0].ended {
        BracketsConcat(a[1..], b, open + [tag], next + 1);
      } else if open != [] && open[|open| - 1] == tag {
        BracketsConcat(a[1..], b, open[..|open| - 1], next);
      }
    }
  }

  ghost predicate SameSpans(a: seq<SpanState>, b: seq<SpanState>) {
    |a| == |b| && forall i :: 0 <= i < |a| ==> a[i].id == b[i].id && a[i].name == b[i].name
  }

  ghost predicate Balanced(t: Trace, next: nat) {
    forall open: seq<(nat, string)> :: Brackets(t.notices, open, next) == Some((open, t.next))
  }

  /** The listener trace of any program, ended normally or by an exception, is a balanced bracket
      word over fresh spans, and every end carries the id and name of its start. */
  lemma {:induction false} TraceBalanced(act: Act, policy: Policy, stack: seq<SpanState>, next: nat)
    ensures var t := Perform(act, policy, stack, next);
            Balanced(t, next) && SameSpans(t.stack, stack) && next <= t.next
    decreases act, 1
  {
    match act
    case Guard(body) => TraceAllBalanced(body, policy, stack, next);
    case Span(name, attributes, body) =>
      var started := SpanState(next, name, Sanitized(attributes, policy), None);
      var t := PerformAll(body, policy, stack + [started], next + 1);
      var closed := t.stack[|stack|];
      TraceAllBalanced(body, policy, stack + [started], next + 1);
      forall open: seq<(nat, string)>
        ensures Brackets([Notice(started, false)] + t.notices + [Notice(closed, true)], open, next)
             == Some((open, t.next))
      {
        Enclosed(t, started, closed, open, next);
      }
    case _ =>
  }

  lemma Enclosed(t: Trace, started: SpanState, closed: SpanState, open: seq<(nat, string)>, next: nat)
    requires Balanced(t, next + 1) && started.id == next && closed.id == next && closed.name == started.name
    ensures Brackets([Notice(started, false)] + t.notices + [Notice(closed, true)], open, next) == Some((open, t.next))
  {
    var inner := open + [(started.id, started.name)];
    var first, last := [Notice(started, false)], [Notice(closed, true)];
    BracketsConcat(first + t.notices, last, open, next);
    BracketsConcat(first, t.notices, open, next);
    assert first[1..] == [] && last[1..] == [];
    assert Brackets(first, open, next) == Some((inner, next + 1));
    assert inner[..|open|] == open;
    assert Brackets(last, inner, t.next) == Some((open, t.next));
  }

  lemma {:induction false} TraceAllBalanced(acts: seq<Act>, policy: Policy, stack: seq<SpanState>, next: nat)
    ensures var t := PerformAll(acts, policy, stack, next);
            Balanced(t, next) && SameSpans(t.stack, stack) && next <= t.next
    decreases acts, 0
  {
    if acts != [] {
      var first := Perform(acts[0], policy, stack, next);
      TraceBalanced(acts[0], policy, stack, next);
      if !first.raised {
        var rest := PerformAll(acts[1..], policy, first.stack, first.next);
        TraceAllBalanced(acts[1..], policy, first.stack, first.next);
        forall open: seq<(nat, string)>
          ensures Brackets(first.notices + rest.notices, open, next) == Some((open, rest.next))
        {
          BracketsConcat(first.notices, rest.notices, open, next);
        }
      }
    }
  }

  // ---------------------------------------------------------------------------
  // Attribute safety
  // ---------------------------------------------------------------------------

  ghost predicate StackSafe(stack: seq<SpanState>, policy: Policy) {
    forall i :: 0 <= i < |stack| ==> AllSafe(stack[i].attributes, policy)
  }

  ghost predicate NoticesSafe(notices: seq<Notice>, policy: Policy) {
    forall i :: 0 <= i < |notices| ==> AllSafe(notices[i].span.attributes, policy)
  }

  /** At every moment of every run, everything stored on an open span and everything a listener is
      shown is allowlisted, of bounded length and free of forbidden text. */
  lemma {:induction false} AttributesSafe(act: Act, policy: Policy, stack: seq<SpanState>, next: nat)
    requires StackSafe(stack, policy)
    ensures var t := Perform(act, policy, stack, next);
            StackSafe(t.stack, policy) && NoticesSafe(t.notices, policy)
    decreases act, 1
  {
    match act
    case SetAttribute(_, key, value) => CleanIsSafe(key, value, policy);
    case Guard(body) => AllAttributesSafe(body, policy, stack, next);
    case Span(name, attributes, body) =>
      var started := SpanState(next, name, Sanitized(attributes, policy), None);
      SanitizedIsSafe(attributes, policy);
      AllAttributesSafe(body, policy, stack + [started], next + 1);
    case _ =>
  }

  lemma {:induction false} AllAttributesSafe(acts: seq<Act>, policy: Policy, stack: seq<SpanState>, next: nat)
    requires StackSafe(stack, policy)
    ensures var t := PerformAll(acts, policy, stack, next);
            StackSafe(t.stack, policy) && NoticesSafe(t.notices, policy)
    decreases acts, 0
  {
    if acts != [] {
      AttributesSafe(acts[0], policy, stack, next);
      var first := Perform(acts[0], policy, stack, next);
      if !first.raised {
        AllAttributesSafe(acts[1..], policy, first.stack, first.next);
      }
    }
  }

  /** A whole program from a fresh recorder: every span that starts also ends, spans are numbered in
      the order they start, and the listener sees only safe attributes. */
  lemma WholeRun(acts: seq<Act>, policy: Policy)
    ensures var t := PerformAll(acts, policy, [], 0);
            Brackets(t.notices, [], 0) == Some(([], t.next)) && NoticesSafe(t.notices, policy)
  {
    TraceAllBalanced(acts, policy, [], 0);
    AllAttributesSafe(acts, policy, [], 0);
  }

  /** Every exported attribute is a safe one, under its own key or under its mirror. */
  lemma ExportSafe(e: Export, s: SpanState, policy: Policy, x: string)
    requires ExportOf(e, s) && AllSafe(s.attributes, policy) && x in e.attributes
    ensures exists k :: Safe(k, e.attributes[x], policy) && (x == k || x == "langsmith.metadata." + k)
  {
    if x in s.attributes {
      assert Safe(x, e.attributes[x], policy);
    } else {
      var k :| k in s.attributes && x == MirrorKey(k);
      assert Safe(k, e.attributes[x], policy);
    }
  }

  // ---------------------------------------------------------------------------
  // What a span shows at its end
  // ---------------------------------------------------------------------------

  /** What a program does to its spans, in order and by span id. */
  datatype Deed =
    | Began(id: nat, name: string, attributes: map<string, Value>)
    | Wrote(id: nat, key: string, value: Value)
    | Failed(id: nat, code: string)
    | Finished(id: nat)

  datatype Course = Course(deeds: seq<Deed>, next: nat, raised: bool)

  /** `open` holds the ids of the open spans, the innermost last. Nothing here knows of states. */
  function DeedsOf(act: Act, open: seq<nat>, next: nat): Course
    decreases act, 1
  {
    match act
    case SetAttribute(depth, key, value) =>
      Course(if depth < |open| then [Wrote(open[|open| - 1 - depth], key, value)] else [], next, false)
    case SetError(depth, code) =>
      Course(if depth < |open| then [Failed(open[|open| - 1 - depth], code)] else [], next, false)
    case Raise => Course([], next, true)
    case Guard(body) => DeedsOfAll(body, open, next).(raised := false)
    case Span(name, attributes, body) =>
      var c := DeedsOfAll(body, open + [next], next + 1);
      Course([Began(next, name, attributes)] + c.deeds + [Finished(next)], c.next, c.raised)
  }

  function DeedsOfAll(acts: seq<Act>, open: seq<nat>, next: nat): Course
    decreases acts, 0
  {
    if acts == [] then Course([], next, false)
    else
      var first := DeedsOf(acts[0], open, next);
      if first.raised then first
      else
        var rest := DeedsOfAll(acts[1..], open, first.next);
        rest.(deeds := first.deeds + rest.deeds)
  }

  /** The code of the last error set on a span. */
  function ErrorOf(history: seq<Deed>, id: nat): Option<string> {
    if history == [] then None
    else
      var last := history[|history| - 1];
      if last.Failed? && last.id == id then Some(last.code) else ErrorOf(history[..|history| - 1], id)
  }

  /** The cleaned value of the last accepted write of a key, the initial attributes included. */
  function ValueOf(history: seq<Deed>, id: nat, key: string, policy: Policy): Option<Value> {
    if history == [] then None
    else
      var last, earlier := history[|history| - 1], history[..|history| - 1];
      if last.Wrote? && last.id == id && last.key == key && Clean(key, last.value, policy).Some? then
        Clean(key, last.value, policy)
      else if last.Began? && last.id == id && key in last.attributes
              && Clean(key, last.attributes[key], policy).Some? then
        Clean(key, last.attributes[key], policy)
      else ValueOf(earlier, id, key, policy)
  }

  ghost predicate ShownBy(s: SpanState, history: seq<Deed>, policy: Policy) {
    && s.error == ErrorOf(history, s.id)
    && forall key :: Attribute(s, key) == ValueOf(history, s.id, key, policy)
  }

  function Attribute(s: SpanState, key: string): Option<Value> {
    if key in s.attributes then Some(s.attributes[key]) else None
  }

  /** Every start is told with the name and the cleaned attributes it was given, every end with what the
      deeds so far left on its span. */
  ghost predicate Told(notices: seq<Notice>, history: seq<Deed>, deeds: seq<Deed>, policy: Policy)
    decreases deeds
  {
    if deeds == [] then notices == []
    else
      var now := history + [deeds[0]];
      match deeds[0]
      case Began(id, name, _) =>
        && notices != [] && !notices[0].ended && notices[0].span.id == id && notices[0].span.name == name
        && ShownBy(notices[0].span, now, policy) && Told(notices[1..], now, deeds[1..], policy)
      case Finished(id) =>
        && notices != [] && notices[0].ended && notices[0].span.id == id
        && ShownBy(notices[0].span, now, policy) && Told(notices[1..], now, deeds[1..], policy)
      case _ => Told(notices, now, deeds[1..], policy)
  }

  lemma {:induction false} ToldConcat(n1: seq<Notice>, n2: seq<Notice>, history: seq<Deed>, d1: seq<Deed>,
                                      d2: seq<Deed>, policy: Policy)
    requires Told(n1, history, d1, policy) && Told(n2, history + d1, d2, policy)
    ensures Told(n1 + n2, history, d1 + d2, policy)
    decreases d1
  {
    if d1 == [] {
      assert n1 + n2 == n2 && d1 + d2 == d2 && history + d1 == history;
    } else {
      var now := history + [d1[0]];
      assert (d1 + d2)[0] == d1[0] && (d1 + d2)[1..] == d1[1..] + d2;
      assert now + d1[1..] == history + d1;
      if d1[0].Began? || d1[0].Finished? {
        assert (n1 + n2)[0] == n1[0] && (n1 + n2)[1..] == n1[1..] + n2;
        ToldConcat(n1[1..], n2, now, d1[1..], d2, policy);
      } else {
        ToldConcat(n1, n2, now, d1[1..], d2, policy);
      }
    }
  }

  ghost predicate Before(history: seq<Deed>, next: nat) {
    forall k :: 0 <= k < |history| ==> history[k].id < next
  }

  lemma {:induction false} NothingYet(history: seq<Deed>, id: nat, key: string, policy: Policy)
    requires Before(history, id)
    ensures ErrorOf(history, id) == None && ValueOf(history, id, key, policy) == None
  {
    if history != [] {
      NothingYet(history[..|history| - 1], id, key, policy);
    }
  }

  function Ids(stack: seq<SpanState>): (ids: seq<nat>)
    ensures |ids| == |stack| && forall i :: 0 <= i < |stack| ==> ids[i] == stack[i].id
  {
    seq(|stack|, i requires 0 <= i < |stack| => stack[i].id)
  }

  /** The open spans are distinct, were begun before, and show what the deeds left on them. */
  ghost predicate StackShown(stack: seq<SpanState>, history: seq<Deed>, next: nat, policy: Policy) {
    && Before(history, next)
    && (forall i :: 0 <= i < |stack| ==> stack[i].id < next && ShownBy(stack[i], history, policy))
    && forall i, j :: 0 <= i < j < |stack| ==> stack[i].id != stack[j].id
  }

  lemma ErrorSnoc(history: seq<Deed>, d: Deed, id: nat)
    ensures ErrorOf(history + [d], id) == if d.Failed? && d.id == id then Some(d.code) else ErrorOf(history, id)
  {
    assert (history + [d])[..|history|] == history;
  }

  lemma ValueSnoc(history: seq<Deed>, d: Deed, id: nat, policy: Policy)
    ensures forall key :: ValueOf(history + [d], id, key, policy) ==
              if d.Wrote? && d.id == id && d.key == key && Clean(key, d.value, policy).Some? then
                Clean(key, d.value, policy)
              else if d.Began? && d.id == id && key in d.attributes && Clean(key, d.attributes[key], policy).Some? then
                Clean(key, d.attributes[key], policy)
              else ValueOf(history, id, key, policy)
  {
    assert (history + [d])[..|history|] == history;
  }

  /** A deed shows on its own span and on no other. */
  lemma DeedShows(s: SpanState, history: seq<Deed>, d: Deed, policy: Policy)
    requires ShownBy(s, history, policy)
    ensures d.id != s.id || d.Finished? ==> ShownBy(s, history + [d], policy)
    ensures d.Wrote? && d.id == s.id ==> ShownBy(Write(s, d.key, d.value, policy), history + [d], policy)
    ensures d.Failed? && d.id == s.id ==> ShownBy(Fail(s, d.code), history + [d], policy)
  {
    ErrorSnoc(history, d, s.id);
    ValueSnoc(history, d, s.id, policy);
  }

  lemma BeginningShows(history: seq<Deed>, id: nat, name: string, attributes: map<string, Value>, policy: Policy)
    requires Before(history, id)
    ensures ShownBy(SpanState(id, name, Sanitized(attributes, policy), None), history + [Began(id, name, attributes)],
                    policy)
  {
    var d := Began(id, name, attributes);
    ErrorSnoc(history, d, id);
    ValueSnoc(history, d, id, policy);
    NothingYet(history, id, "", policy);
    forall key ensures Attribute(SpanState(id, name, Sanitized(attributes, policy), None), key)
                    == ValueOf(history + [d], id, key, policy)
    {
      NothingYet(history, id, key, policy);
    }
  }

  lemma OneDeed(stack: seq<SpanState>, after: seq<SpanState>, history: seq<Deed>, d: Deed, at: nat, next: nat,
                policy: Policy)
    requires StackShown(stack, history, next, policy) && at < |stack| && d.id == stack[at].id
    requires || (d.Wrote? && after == stack[at := Write(stack[at], d.key, d.value, policy)])
             || (d.Failed? && after == stack[at := Fail(stack[at], d.code)])
    ensures StackShown(after, history + [d], next, policy) && Ids(after) == Ids(stack)
  {
    forall i | 0 <= i < |stack| ensures ShownBy(after[i], history + [d], policy) {
      DeedShows(stack[i], history, d, policy);
    }
  }

  /** A span joins the open ones. */
  lemma OpeningShows(stack: seq<SpanState>, history: seq<Deed>, next: nat, name: string, attributes: map<string, Value>,
                     policy: Policy)
    requires StackShown(stack, history, next, policy)
    ensures var started := SpanState(next, name, Sanitized(attributes, policy), None);
            var now := history + [Began(next, name, attributes)];
            && StackShown(stack + [started], now, next + 1, policy) && ShownBy(started, now, policy)
            && Ids(stack + [started]) == Ids(stack) + [next]
  {
    var d := Began(next, name, attributes);
    BeginningShows(history, next, name, attributes, policy);
    forall i | 0 <= i < |stack| ensures ShownBy(stack[i], history + [d], policy) {
      DeedShows(stack[i], history, d, policy);
    }
  }

  /** The innermost span leaves the open ones. */
  lemma ClosingShows(stack: seq<SpanState>, history: seq<Deed>, next: nat, policy: Policy)
    requires StackShown(stack, history, next, policy) && stack != []
    ensures var last := stack[|stack| - 1];
            var now := history + [Finished(last.id)];
            && StackShown(stack[..|stack| - 1], now, next, policy) && ShownBy(last, now, policy)
            && Ids(stack[..|stack| - 1]) == Ids(stack)[..|stack| - 1]
  {
    var d := Finished(stack[|stack| - 1].id);
    forall i | 0 <= i < |stack| ensures ShownBy(stack[i], history + [d], policy) {
      DeedShows(stack[i], history, d, policy);
    }
  }

  ghost predicate Follows(t: Trace, c: Course, stack: seq<SpanState>, history: seq<Deed>, policy: Policy) {
    && t.next == c.next && t.raised == c.raised && Told(t.notices, history, c.deeds, policy)
    && StackShown(t.stack, history + c.deeds, t.next, policy) && Ids(t.stack) == Ids(stack)
  }

  lemma {:induction false} PerformFollowsDeeds(act: Act, policy: Policy, stack: seq<SpanState>, next: nat,
                                               history: seq<Deed>)
    requires StackShown(stack, history, next, policy)
    ensures Follows(Perform(act, policy, stack, next), DeedsOf(act, Ids(stack), next), stack, history, policy)
    decreases act, 1
  {
    var t, c := Perform(act, policy, stack, next), DeedsOf(act, Ids(stack), next);
    assert history + [] == history;
    match act
    case SetAttribute(depth, key, value) =>
      if depth < |stack| {
        OneDeed(stack, t.stack, history, c.deeds[0], |stack| - 1 - depth, next, policy);
      }
    case SetError(depth, code) =>
      if depth < |stack| {
        OneDeed(stack, t.stack, history, c.deeds[0], |stack| - 1 - depth, next, policy);
      }
    case Raise =>
    case Guard(body) => AllFollowDeeds(body, policy, stack, next, history);
    case Span(name, attributes, body) =>
      var started := SpanState(next, name, Sanitized(attributes, policy), None);
      var first := Began(next, name, attributes);
      OpeningShows(stack, history, next, name, attributes, policy);
      AllFollowDeeds(body, policy, stack + [started], next + 1, history + [first]);
      SpanFollows(name, attributes, policy, stack, history, started, first,
                  PerformAll(body, policy, stack + [started], next + 1),
                  DeedsOfAll(body, Ids(stack) + [next], next + 1));
  }

  lemma SpanFollows(name: string, attributes: map<string, Value>, policy: Policy, stack: seq<SpanState>,
                    history: seq<Deed>, started: SpanState, first: Deed, inner: Trace, course: Course)
    requires first == Began(started.id, name, attributes) && started.name == name
    requires ShownBy(started, history + [first], policy)
    requires Follows(inner, course, stack + [started], history + [first], policy)
    requires |inner.stack| == |stack| + 1
    ensures var closed, last := inner.stack[|stack|], Finished(started.id);
            Follows(Trace(inner.stack[..|stack|], [Notice(started, false)] + inner.notices + [Notice(closed, true)],
                          inner.next, inner.raised),
                    Course([first] + course.deeds + [last], course.next, course.raised), stack, history, policy)
  {
    var closed, last := inner.stack[|stack|], Finished(started.id);
    var begun, ended := [Notice(started, false)], [Notice(closed, true)];
    assert Ids(inner.stack)[|stack|] == Ids(stack + [started])[|stack|];
    ClosingShows(inner.stack, history + [first] + course.deeds, inner.next, policy);
    var now := history + [first] + course.deeds;
    assert [last][1..] == [] && ended[1..] == [] && begun[1..] == [] && [first][1..] == [];
    assert Told(ended, now, [last], policy);
    assert Told(begun, history, [first], policy);
    ToldConcat(inner.notices, ended, history + [first], course.deeds, [last], policy);
    ToldConcat(begun, inner.notices + ended, history, [first], course.deeds + [last], policy);
    assert begun + (inner.notices + ended) == begun + inner.notices + ended;
    assert [first] + (course.deeds + [last]) == [first] + course.deeds + [last];
    assert history + ([first] + course.deeds + [last]) == now + [last];
    assert Ids(inner.stack[..|stack|]) == Ids(stack);
  }

  lemma {:induction false} AllFollowDeeds(acts: seq<Act>, policy: Policy, stack: seq<SpanState>, next: nat,
                                          history: seq<Deed>)
    requires StackShown(stack, history, next, policy)
    ensures Follows(PerformAll(acts, policy, stack, next), DeedsOfAll(acts, Ids(stack), next), stack, history, policy)
    decreases acts, 0
  {
    if acts == [] {
      assert history + [] == history;
    } else {
      var first, c := Perform(acts[0], policy, stack, next), DeedsOf(acts[0], Ids(stack), next);
      PerformFollowsDeeds(acts[0], policy, stack, next, history);
      if !first.raised {
        var rest := PerformAll(acts[1..], policy, first.stack, first.next);
        var later := DeedsOfAll(acts[1..], Ids(stack), first.next);
        AllFollowDeeds(acts[1..], policy, first.stack, first.next, history + c.deeds);
        ToldConcat(first.notices, rest.notices, history, c.deeds, later.deeds, policy);
        assert history + c.deeds + later.deeds == history + (c.deeds + later.deeds);
      }
    }
  }

  /** Over any program the listener is told what its deeds say: at its end a span shows the code of the last
      error set on it, or none, and for each key the cleaned value of the last accepted write; writes and
      errors of other spans change nothing on it. */
  lemma DeedsAreTold(acts: seq<Act>, policy: Policy)
    ensures var t, c := PerformAll(acts, policy, [], 0), DeedsOfAll(acts, [], 0);
            Told(t.notices, [], c.deeds, policy) && t.raised == c.raised && t.next == c.next
  {
    AllFollowDeeds(acts, policy, [], 0, []);
    assert Ids([]) == [];
  }

  // ---------------------------------------------------------------------------
  // The recorder, with and without a tracer
  // ---------------------------------------------------------------------------

  ghost function States(stack: seq<TraceSpan>): seq<SpanState>
    reads set s | s in stack
  {
    if stack == [] then [] else States(stack[..|stack| - 1]) + [stack[|stack| - 1].State()]
  }

  lemma {:induction false} StatesAt(stack: seq<TraceSpan>)
    ensures |States(stack)| == |stack| && forall i :: 0 <= i < |stack| ==> States(stack)[i] == stack[i].State()
  {
    if stack != [] {
      StatesAt(stack[..|stack| - 1]);
    }
  }

  /** The exports of the spans that ended, in the order they ended. */
  ghost predicate ExportsEnded(exports: seq<Export>, notices: seq<Notice>)
  {
    if notices == [] then exports == []
    else if notices[0].ended then
      exports != [] && ExportOf(exports[0], notices[0].span) && ExportsEnded(exports[1..], notices[1..])
    else ExportsEnded(exports, notices[1..])
  }

  lemma {:induction false} ExportsConcat(e1: seq<Export>, n1: seq<Notice>, e2: seq<Export>, n2: seq<Notice>)
    requires ExportsEnded(e1, n1) && ExportsEnded(e2, n2)
    ensures ExportsEnded(e1 + e2, n1 + n2)
    decreases n1
  {
    if n1 == [] {
      assert e1 + e2 == e2 && n1 + n2 == n2;
    } else {
      assert (n1 + n2)[0] == n1[0] && (n1 + n2)[1..] == n1[1..] + n2;
      if n1[0].ended {
        assert (e1 + e2)[0] == e1[0] && (e1 + e2)[1..] == e1[1..] + e2;
        ExportsConcat(e1[1..], n1[1..], e2, n2);
      } else {
        ExportsConcat(e1, n1[1..], e2, n2);
      }
    }
  }

  class TraceRecorder {
    const tracing: bool
    const policy: TracePolicy
    var next: nat
    var notices: seq<Notice>
    var exported: seq<Export>

    constructor (tracing: bool, policy: TracePolicy)
      ensures this.tracing == tracing && this.policy == policy && next == 0 && notices == [] && exported == []
    {
      this.tracing, this.policy := tracing, policy;
      next, notices, exported := 0, [], [];
    }

    ghost predicate Openable(span: TraceSpan)
      reads span
    {
      span.Valid() && span.policy == policy && span.traced == tracing
    }

    ghost predicate Open(stack: seq<TraceSpan>)
      reads set s | s in stack
    {
      && (forall i :: 0 <= i < |stack| ==> Openable(stack[i]))
      && (forall i, j :: 0 <= i < j < |stack| ==> stack[i] != stack[j])
    }

    /** `_apply_initial_attributes`: sanitizes, then sets each survivor, which sanitizes again. */
    method ApplyInitialAttributes(span: TraceSpan, attributes: map<string, Value>)
      requires span.Valid() && span.policy == policy && span.attributes == map[]
      modifies span
      ensures span.Valid() && span.State() == old(span.State()).(attributes := Sanitized(attributes, policy))
    {
      var sanitized := SanitizeAttributes(attributes, policy);
      var left := sanitized.Keys;
      while left != {}
        invariant left <= sanitized.Keys && span.Valid()
        invariant span.State() == old(span.State()).(attributes := map k | k in sanitized && k !in left :: sanitized[k])
        decreases left
      {
        var k :| k in left;
        left := left - {k};
        CleanKeepsExactlySafe(k, sanitized[k], policy);
        ghost var before := span.attributes;
        var _ := span.SetAttribute(k, sanitized[k]);
        assert span.attributes == before[k := sanitized[k]];
      }
      assert span.attributes == sanitized;
    }

    method Notify(span: TraceSpan, ended: bool)
      modifies this`notices
      ensures notices == old(notices) + [Notice(span.State(), ended)]
    {
      notices := notices + [Notice(SpanState(span.id, span.name, span.attributes, span.error), ended)];
    }

    /** The recorder has done what trace `t` says since the given moment: the listener heard it, the
        open spans hold it, and a tracer, if there is one, exported each ended span. */
    ghost predicate Did(t: Trace, stack: seq<TraceSpan>, heard: seq<Notice>, sent: seq<Export>)
      reads this, set s | s in stack
    {
      && States(stack) == t.stack && next == t.next && notices == heard + t.notices
      && Sent(t.notices, sent)
    }

    ghost predicate Sent(ended: seq<Notice>, sent: seq<Export>)
      reads this
    {
      if tracing then sent <= exported && ExportsEnded(exported[|sent|..], ended) else exported == sent
    }

    lemma SentMore(a: seq<Notice>, sent: seq<Export>, between: seq<Export>, b: seq<Notice>)
      requires tracing ==> sent <= between && ExportsEnded(between[|sent|..], a)
      requires !tracing ==> between == sent
      requires Sent(b, between)
      ensures Sent(a + b, sent)
    {
      if tracing {
        ExportsConcat(between[|sent|..], a, exported[|between|..], b);
        assert exported[|sent|..] == between[|sent|..] + exported[|between|..];
      }
    }

    /** The part both branches of `span` share: initial attributes, start notice, body, end notice. */
    method Enclose(span: TraceSpan, attributes: map<string, Value>, body: seq<Act>, stack: seq<TraceSpan>)
      returns (raised: bool, ghost started: SpanState)
      requires Open(stack) && span !in stack && Openable(span)
      requires span.attributes == map[] && span.error == None && next == span.id + 1
      modifies this, stack, span
      ensures Open(stack) && Openable(span)
      ensures started == SpanState(span.id, span.name, Sanitized(attributes, policy), None)
      ensures var t := PerformAll(body, policy, old(States(stack)) + [started], span.id + 1);
              && t.stack == States(stack) + [span.State()] && next == t.next && raised == t.raised
              && notices == old(notices) + [Notice(started, false)] + t.notices + [Notice(span.State(), true)]
              && Sent(t.notices, old(exported))
      decreases body, 1
    {
      var inner := Begin(span, attributes, stack);
      started := span.State();
      raised := RunAll(body, inner);
      OpenPop(stack, span);
      StatesPush(stack, span);
      Notify(span, true);
    }

    /** Everything before the body: the span joins the open ones and the listener hears of it. */
    method Begin(span: TraceSpan, attributes: map<string, Value>, stack: seq<TraceSpan>) returns (inner: seq<TraceSpan>)
      requires Open(stack) && span !in stack && Openable(span)
      requires span.attributes == map[]
      modifies this`notices, span
      ensures inner == stack + [span] && Open(inner)
      ensures span.State() == old(span.State()).(attributes := Sanitized(attributes, policy))
      ensures States(inner) == old(States(stack)) + [span.State()]
      ensures notices == old(notices) + [Notice(span.State(), false)]
    {
      ApplyInitialAttributes(span, attributes);
      inner := stack + [span];
      StatesPush(stack, span);
      OpenPush(stack, span);
      Notify(span, false);
    }

    lemma SentStart(start: Notice, rest: seq<Notice>, sent: seq<Export>)
      requires !start.ended && Sent(rest, sent)
      ensures Sent([start] + rest, sent)
    {
      assert ([start] + rest)[1..] == rest;
    }

    lemma StatesPush(stack: seq<TraceSpan>, span: TraceSpan)
      ensures States(stack + [span]) == States(stack) + [span.State()] && |States(stack)| == |stack|
    {
      StatesAt(stack);
      assert (stack + [span])[..|stack|] == stack;
    }

    lemma OpenPop(stack: seq<TraceSpan>, span: TraceSpan)
      requires Open(stack + [span])
      ensures Open(stack) && Openable(span)
    {
      assert (stack + [span])[|stack|] == span;
      assert forall i :: 0 <= i < |stack| ==> (stack + [span])[i] == stack[i];
    }

    lemma OpenPush(stack: seq<TraceSpan>, span: TraceSpan)
      requires Open(stack) && Openable(span) && span !in stack
      ensures Open(stack + [span])
    {
    }

    /** Leaving the tracer's own context ends the exported span. */
    method ExportSpan(span: TraceSpan, ghost heard: seq<Notice>, ghost sent: seq<Export>)
      requires tracing && Openable(span) && Sent(heard, sent)
      modifies this`exported
      ensures Sent(heard + [Notice(span.State(), true)], sent)
    {
      ghost var between, last := exported, [Notice(span.State(), true)];
      var e := Export(span.name, span.otel, span.status);
      exported := exported + [e];
      assert [e][1..] == [] && last[1..] == [] && exported[|between|..] == [e];
      SentMore(heard, sent, between, last);
    }

    /** `with recorder.span(name, attributes)`: two branches that differ only in where the span's
        values are mirrored. An exception of the body passes through after the end notice. */
    method RunSpan(name: string, attributes: map<string, Value>, body: seq<Act>, stack: seq<TraceSpan>)
      returns (raised: bool)
      requires Open(stack)
      modifies this, stack
      ensures Open(stack)
      ensures var t := Perform(Span(name, attributes, body), policy, old(States(stack)), old(next));
              Did(t, stack, old(notices), old(exported)) && raised == t.raised
      decreases body, 3
    {
      if !tracing {
        raised := RunNullSpan(name, attributes, body, stack);
      } else {
        raised := RunOtelSpan(name, attributes, body, stack);
      }
    }

    /** Puts the pieces of one enclosed span together. */
    lemma SpanDone(span: TraceSpan, attributes: map<string, Value>, body: seq<Act>, before: seq<SpanState>,
                   started: SpanState, states: seq<SpanState>, heard: seq<Notice>, sent: seq<Export>)
      requires started == SpanState(span.id, span.name, Sanitized(attributes, policy), None)
      requires var t := PerformAll(body, policy, before + [started], span.id + 1);
               t.stack == states + [span.State()] && Sent(t.notices, sent)
      ensures var t := PerformAll(body, policy, before + [started], span.id + 1);
              var word := [Notice(started, false)] + t.notices;
              var last := [Notice(span.State(), true)];
              && Perform(Span(span.name, attributes, body), policy, before, span.id)
                 == Trace(states, word + last, t.next, t.raised)
              && heard + [Notice(started, false)] + t.notices + last == heard + (word + last)
              && Sent(word, sent)
              && (!tracing ==> Sent(word + last, sent))
    {
      var t := PerformAll(body, policy, before + [started], span.id + 1);
      PerformSpan(span.name, attributes, body, policy, before, started, t, states, span.State());
      Associative(heard, [Notice(started, false)], t.notices);
      Associative(heard, [Notice(started, false)] + t.notices, [Notice(span.State(), true)]);
      SentStart(Notice(started, false), t.notices, sent);
    }

    method RunNullSpan(name: string, attributes: map<string, Value>, body: seq<Act>, stack: seq<TraceSpan>)
      returns (raised: bool)
      requires Open(stack) && !tracing
      modifies this, stack
      ensures Open(stack)
      ensures var t := Perform(Span(name, attributes, body), policy, old(States(stack)), old(next));
              Did(t, stack, old(notices), old(exported)) && raised == t.raised
      decreases body, 2
    {
      var span := new TraceSpan(next, name, policy, false);
      next := next + 1;
      ghost var started;
      raised, started := Enclose(span, attributes, body, stack);
      SpanDone(span, attributes, body, old(States(stack)), started, States(stack), old(notices), old(exported));
    }

    method RunOtelSpan(name: string, attributes: map<string, Value>, body: seq<Act>, stack: seq<TraceSpan>)
      returns (raised: bool)
      requires Open(stack) && tracing
      modifies this, stack
      ensures Open(stack)
      ensures var t := Perform(Span(name, attributes, body), policy, old(States(stack)), old(next));
              Did(t, stack, old(notices), old(exported)) && raised == t.raised
      decreases body, 2
    {
      ghost var before, heard, sent := States(stack), notices, exported;
      var span := new TraceSpan(next, name, policy, true);
      next := next + 1;
      ghost var started;
      raised, started := Enclose(span, attributes, body, stack);
      Leave(span, attributes, body, stack, before, started, heard, sent);
    }

    /** The exported span ends after the listener heard of the end. */
    method Leave(span: TraceSpan, ghost attributes: map<string, Value>, ghost body: seq<Act>,
                 ghost stack: seq<TraceSpan>, ghost before: seq<SpanState>, ghost started: SpanState,
                 ghost heard: seq<Notice>, ghost sent: seq<Export>)
      requires tracing && Openable(span) && Open(stack)
      requires started == SpanState(span.id, span.name, Sanitized(attributes, policy), None)
      requires var t := PerformAll(body, policy, before + [started], span.id + 1);
               && t.stack == States(stack) + [span.State()] && Sent(t.notices, sent) && next == t.next
               && notices == heard + [Notice(started, false)] + t.notices + [Notice(span.State(), true)]
      modifies this`exported
      ensures Open(stack)
      ensures var t := Perform(Span(span.name, attributes, body), policy, before, span.id);
              && Did(t, stack, heard, sent)
              && t.raised == PerformAll(body, policy, before + [started], span.id + 1).raised
    {
      SpanDone(span, attributes, body, before, started, States(stack), heard, sent);
      ghost var word := [Notice(started, false)] + PerformAll(body, policy, before + [started], span.id + 1).notices;
      ExportSpan(span, word, sent);
    }

    method WriteAt(stack: seq<TraceSpan>, depth: nat, key: string, value: Value)
      requires Open(stack)
      modifies stack
      ensures Open(stack) && States(stack) == Touch(old(States(stack)), depth, s => Write(s, key, value, policy))
    {
      StatesAt(stack);
      if depth < |stack| {
        var _ := stack[|stack| - 1 - depth].SetAttribute(key, value);
        StatesAt(stack);
      }
    }

    method FailAt(stack: seq<TraceSpan>, depth: nat, code: string)
      requires Open(stack)
      modifies stack
      ensures Open(stack) && States(stack) == Touch(old(States(stack)), depth, s => Fail(s, code))
    {
      StatesAt(stack);
      if depth < |stack| {
        stack[|stack| - 1 - depth].SetError(code);
        StatesAt(stack);
      }
    }

    method RunAct(act: Act, stack: seq<TraceSpan>) returns (raised: bool)
      requires Open(stack)
      modifies this, stack
      ensures Open(stack)
      ensures var t := Perform(act, policy, old(States(stack)), old(next));
              Did(t, stack, old(notices), old(exported)) && raised == t.raised
      decreases act
    {
      raised := false;
      match act
      case SetAttribute(depth, key, value) => WriteAt(stack, depth, key, value);
      case SetError(depth, code) => FailAt(stack, depth, code);
      case Span(name, attributes, body) => raised := RunSpan(name, attributes, body, stack);
      case Raise => raised := true;
      case Guard(body) => var _ := RunAll(body, stack);
    }

    method RunAll(acts: seq<Act>, stack: seq<TraceSpan>) returns (raised: bool)
      requires Open(stack)
      modifies this, stack
      ensures Open(stack)
      ensures var t := PerformAll(acts, policy, old(States(stack)), old(next));
              Did(t, stack, old(notices), old(exported)) && raised == t.raised
      decreases acts, 0
    {
      if acts == [] {
        return false;
      }
      ghost var before, from := States(stack), next;
      raised := RunAct(acts[0], stack);
      ghost var first := Perform(acts[0], policy, before, from);
      if !raised {
        ghost var between := exported;
        raised := RunAll(acts[1..], stack);
        ghost var rest := PerformAll(acts[1..], policy, first.stack, first.next);
        SentMore(first.notices, old(exported), between, rest.notices);
        Associative(old(notices), first.notices, rest.notices);
      }
    }
  }
}
