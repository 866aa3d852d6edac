/** The deterministic substitute for the hosted model: a plan replayed by counting tool returns, and
    the variant that multiplexes many plans. */
module OfflineModel {
  import opened Wrappers
  import opened PythonText
  import opened Sequences

  // ---------------------------------------------------------------------------
  // Messages and plans
  // ---------------------------------------------------------------------------

  datatype ToolCall = ToolCall(tool: string, arguments: map<string, string>)

  /** A part of a message; a tool result need not be text. */
  datatype Part =
    | PromptPart(prompt: string)
    | TextPart(text: string)
    | CallPart(call: ToolCall)
    | ReturnPart(result: Option<string>)
    | RetryPart(advice: Option<string>)

  type Message = seq<Part>

  /** Routing and answer stand for their JSON texts. */
  datatype Plan = Plan(routing: string, calls: seq<ToolCall>, answer: Option<string>, cost: real)

  datatype Response = Response(part: Part, cost: real)

  datatype Crash = IndexError | StopIteration

  predicate IsReturn(p: Part) {
    p.ReturnPart?
  }

  /** How many tool returns a history holds. */
  function Returns(messages: seq<Message>): nat {
    |Filter(IsReturn, Flatten(messages))|
  }

  /** `getattr(part, "content", None)` where it is a string. */
  function Content(p: Part): string {
    match p
    case PromptPart(prompt) => prompt
    case TextPart(text) => text
    case CallPart(_) => ""
    case ReturnPart(result) => if result.Some? then result.value else ""
    case RetryPart(advice) => if advice.Some? then advice.value else ""
  }

  /** All text of a history, joined without separators. */
  function Observed(messages: seq<Message>): string {
    Flatten(Map(Content, Flatten(messages)))
  }

  lemma {:induction false} FlattenConcat<T>(a: seq<seq<T>>, b: seq<seq<T>>)
    ensures Flatten(a + b) == Flatten(a) + Flatten(b)
  {
    if a == [] {
      assert a + b == b;
    } else {
      assert (a + b)[0] == a[0] && (a + b)[1..] == a[1..] + b;
      FlattenConcat(a[1..], b);
    }
  }

  lemma FlattenOne<T>(piece: seq<T>)
    ensures Flatten([piece]) == piece
  {
    assert [piece][1..] == [];
    assert Flatten([piece]) == piece + Flatten<T>([]);
  }

  /** One more message adds its own returns. */
  lemma ReturnsSnoc(messages: seq<Message>, last: Message)
    ensures Returns(messages + [last]) == Returns(messages) + |Filter(IsReturn, last)|
  {
    FlattenConcat(messages, [last]);
    FlattenOne(last);
    FilterConcat(IsReturn, Flatten(messages), last);
  }

  lemma ReturnsOfPart(p: Part)
    ensures |Filter(IsReturn, [p])| == if p.ReturnPart? then 1 else 0
  {
    assert [p][1..] == [];
  }

  lemma {:induction false} FilterSnoc(p: Part -> bool, s: seq<Part>, k: nat)
    requires k < |s|
    ensures |Filter(p, s[..k + 1])| == |Filter(p, s[..k])| + if p(s[k]) then 1 else 0
  {
    assert s[..k + 1] == s[..k] + [s[k]];
    FilterConcat(p, s[..k], [s[k]]);
    assert [s[k]][1..] == [];
  }

  // ---------------------------------------------------------------------------
  // The single-plan model
  // ---------------------------------------------------------------------------

  /** The reply after `seen` tool returns. */
  function Move(plan: Plan, seen: nat): Result<Part, Crash> {
    if plan.answer.Some? && seen >= |plan.calls| then Ok(TextPart(plan.answer.value))
    else if seen < |plan.calls| then Ok(CallPart(plan.calls[seen]))
    else Err(IndexError)
  }

  function Priced(part: Result<Part, Crash>, cost: real): Result<Response, Crash> {
    if part.Ok? then Ok(Response(part.value, cost)) else Err(part.error)
  }

  /** What the model answers to one request; without function tools it is asked to route. */
  function Respond(plan: Plan, messages: seq<Message>, functionTools: bool): Result<Part, Crash> {
    if functionTools then Move(plan, Returns(messages)) else Ok(TextPart(plan.routing))
  }

  method CountReturns(messages: seq<Message>) returns (seen: nat)
    ensures seen == Returns(messages)
  {
    seen := 0;
    for i := 0 to |messages|
      invariant seen == Returns(messages[..i])
    {
      var parts := messages[i];
      for j := 0 to |parts|
        invariant seen == Returns(messages[..i]) + |Filter(IsReturn, parts[..j])|
      {
        FilterSnoc(IsReturn, parts, j);
        if parts[j].ReturnPart? {
          seen := seen + 1;
        }
      }
      assert parts[..|parts|] == parts;
      assert messages[..i + 1] == messages[..i] + [parts];
      ReturnsSnoc(messages[..i], parts);
    }
    assert messages[..|messages|] == messages;
  }

  /** `_answer_scripted`. */
  method AnswerScripted(plan: Plan, messages: seq<Message>) returns (reply: Result<Response, Crash>)
    ensures reply == Priced(Respond(plan, messages, true), plan.cost)
  {
    var seen := CountReturns(messages);
    if plan.answer.Some? && seen >= |plan.calls| {
      return Ok(Response(TextPart(plan.answer.value), plan.cost));
    }
    if seen >= |plan.calls| {
      return Err(IndexError);
    }
    return Ok(Response(CallPart(plan.calls[seen]), plan.cost));
  }

  /** The `scripted` function of `build_offline_model`. */
  method Scripted(plan: Plan, messages: seq<Message>, functionTools: bool) returns (reply: Result<Response, Crash>)
    ensures reply == Priced(Respond(plan, messages, functionTools), plan.cost)
    ensures reply.Ok? ==> reply.value.cost == plan.cost
    ensures !functionTools ==> reply.Ok? && reply.value.part == TextPart(plan.routing)
  {
    if !functionTools {
      return Ok(Response(TextPart(plan.routing), plan.cost));
    }
    reply := AnswerScripted(plan, messages);
  }

  /** The model indexes past its plan exactly when it has no answer to give after the last call. */
  lemma CrashesWithoutAnswerOnly(plan: Plan, messages: seq<Message>, functionTools: bool)
    ensures Respond(plan, messages, functionTools).Err?
       <==> functionTools && plan.answer.None? && Returns(messages) >= |plan.calls|
  {
  }

  // ---------------------------------------------------------------------------
  // Replay against a tool environment
  // ---------------------------------------------------------------------------

  /** What the environment does with one planned call: ask for some retries, then return. */
  datatype Trial = Trial(retries: seq<Option<string>>, result: Option<string>)

  function Outcomes(trials: seq<Trial>): seq<Part> {
    if trials == [] then []
    else Map(a => RetryPart(a), trials[0].retries) + [ReturnPart(trials[0].result)] + Outcomes(trials[1..])
  }

  datatype End = Answered(text: string) | Crashed(crash: Crash) | Pending

  /** What an agent run shows: the calls in the order made, the number of model requests, the end. */
  datatype Transcript = Transcript(calls: seq<ToolCall>, requests: nat, end: End)

  function Then(call: ToolCall, rest: Transcript): Transcript {
    Transcript([call] + rest.calls, rest.requests + 1, rest.end)
  }

  /** An agent run: each reply that is a call is answered by the next tool outcome and the history
      grows by both; the run stops at an answer. */
  function Converse(plan: Plan, history: seq<Message>, outcomes: seq<Part>): Transcript
    decreases |outcomes|
  {
    match Respond(plan, history, true)
    case Err(crash) => Transcript([], 1, Crashed(crash))
    case Ok(CallPart(call)) =>
      if outcomes == [] then Transcript([call], 1, Pending)
      else Then(call, Converse(plan, history + [[CallPart(call)]] + [[outcomes[0]]], outcomes[1..]))
    case Ok(part) => Transcript([], 1, Answered(Content(part)))
  }

  /** The same run, told from the number of returns alone. */
  function Replay(plan: Plan, seen: nat, outcomes: seq<Part>): Transcript
    decreases |outcomes|
  {
    match Move(plan, seen)
    case Err(crash) => Transcript([], 1, Crashed(crash))
    case Ok(CallPart(call)) =>
      if outcomes == [] then Transcript([call], 1, Pending)
      else Then(call, Replay(plan, seen + if outcomes[0].ReturnPart? then 1 else 0, outcomes[1..]))
    case Ok(part) => Transcript([], 1, Answered(Content(part)))
  }

  /** A call and what became of it add a return to the history, or none. */
  lemma ReturnsGrow(history: seq<Message>, call: Part, outcome: Part)
    requires call.CallPart?
    ensures Returns(history + [[call]] + [[outcome]]) == Returns(history) + if outcome.ReturnPart? then 1 else 0
  {
    ReturnsSnoc(history, [call]);
    ReturnsOfPart(call);
    ReturnsSnoc(history + [[call]], [outcome]);
    ReturnsOfPart(outcome);
  }

  lemma {:induction false} ConverseIsReplay(plan: Plan, history: seq<Message>, outcomes: seq<Part>)
    ensures Converse(plan, history, outcomes) == Replay(plan, Returns(history), outcomes)
    decreases |outcomes|
  {
    var move := Move(plan, Returns(history));
    if move.Ok? && move.value.CallPart? && outcomes != [] {
      ReturnsGrow(history, move.value, outcomes[0]);
      ConverseIsReplay(plan, history + [[move.value]] + [[outcomes[0]]], outcomes[1..]);
    }
  }

  function Repeat(call: ToolCall, n: nat): seq<ToolCall> {
    if n == 0 then [] else [call] + Repeat(call, n - 1)
  }

  function WithRetries(calls: seq<ToolCall>, trials: seq<Trial>): seq<ToolCall>
    requires |calls| == |trials|
  {
    if calls == [] then [] else Repeat(calls[0], |trials[0].retries| + 1) + WithRetries(calls[1..], trials[1..])
  }

  function Retries(trials: seq<Trial>): nat {
    if trials == [] then 0 else |trials[0].retries| + Retries(trials[1..])
  }

  function Prefixed(calls: seq<ToolCall>, rest: Transcript): Transcript {
    Transcript(calls + rest.calls, |calls| + rest.requests, rest.end)
  }

  /** A retry makes the model repeat the call, a return makes it go on. */
  lemma {:induction false} ReplayTrial(plan: Plan, seen: nat, retries: seq<Option<string>>, result: Option<string>,
                                       later: seq<Part>)
    requires seen < |plan.calls|
    ensures Replay(plan, seen, Map(a => RetryPart(a), retries) + [ReturnPart(result)] + later)
         == Prefixed(Repeat(plan.calls[seen], |retries| + 1), Replay(plan, seen + 1, later))
    decreases |retries|
  {
    var advise := a => RetryPart(a);
    var call := plan.calls[seen];
    var outcomes := Map(advise, retries) + [ReturnPart(result)] + later;
    if retries == [] {
      assert outcomes[0] == ReturnPart(result) && outcomes[1..] == later;
      assert Repeat(call, 1) == [call] + Repeat(call, 0);
      assert [call] + [] == [call];
    } else {
      var shorter := Map(advise, retries[1..]) + [ReturnPart(result)] + later;
      assert outcomes[0] == RetryPart(retries[0]) && outcomes[1..] == shorter;
      ReplayTrial(plan, seen, retries[1..], result, later);
      Associative([call], Repeat(call, |retries|), Replay(plan, seen + 1, later).calls);
    }
  }

  lemma {:induction false} ReplayTrials(plan: Plan, seen: nat, trials: seq<Trial>)
    requires plan.answer.Some? && seen + |trials| == |plan.calls|
    ensures Replay(plan, seen, Outcomes(trials))
         == Transcript(WithRetries(plan.calls[seen..], trials), |plan.calls| - seen + Retries(trials) + 1,
                       Answered(plan.answer.value))
    decreases |trials|
  {
    if trials != [] {
      var trial := trials[0];
      ReplayTrial(plan, seen, trial.retries, trial.result, Outcomes(trials[1..]));
      ReplayTrials(plan, seen + 1, trials[1..]);
      assert plan.calls[seen..][0] == plan.calls[seen] && plan.calls[seen..][1..] == plan.calls[seen + 1..];
      RepeatLength(plan.calls[seen], |trial.retries| + 1);
    } else {
      assert plan.calls[seen..] == [];
    }
  }

  lemma {:induction false} RepeatLength(call: ToolCall, n: nat)
    ensures |Repeat(call, n)| == n
  {
    if n > 0 {
      RepeatLength(call, n - 1);
    }
  }

  /** Any plan with an answer is replayed in order, each call repeated once per retry asked for, and
      then answered, with one model request per call, per retry and for the answer. */
  lemma ReplayWithRetries(plan: Plan, history: seq<Message>, trials: seq<Trial>)
    requires plan.answer.Some? && Returns(history) == 0 && |trials| == |plan.calls|
    ensures Converse(plan, history, Outcomes(trials))
         == Transcript(WithRetries(plan.calls, trials), |plan.calls| + Retries(trials) + 1, Answered(plan.answer.value))
  {
    ConverseIsReplay(plan, history, Outcomes(trials));
    ReplayTrials(plan, 0, trials);
    assert plan.calls[0..] == plan.calls;
  }

  /** Without an answer the same replay ends in the index error, after all planned calls. */
  lemma {:induction false} ReplayWithoutAnswer(plan: Plan, seen: nat, trials: seq<Trial>)
    requires plan.answer.None? && seen + |trials| == |plan.calls|
    ensures Replay(plan, seen, Outcomes(trials)).end == Crashed(IndexError)
    ensures Replay(plan, seen, Outcomes(trials)).calls == WithRetries(plan.calls[seen..], trials)
    decreases |trials|
  {
    if trials != [] {
      var trial := trials[0];
      ReplayTrial(plan, seen, trial.retries, trial.result, Outcomes(trials[1..]));
      ReplayWithoutAnswer(plan, seen + 1, trials[1..]);
      assert plan.calls[seen..][0] == plan.calls[seen] && plan.calls[seen..][1..] == plan.calls[seen + 1..];
    } else {
      assert plan.calls[seen..] == [];
    }
  }

  // ---------------------------------------------------------------------------
  // The proof model
  // ---------------------------------------------------------------------------

  const EMBEDDED_SCENARIOS: seq<string> := [
    "phase2-01-bad-prompt-policy-answer",
    "phase2-02-wrong-policy-evidence",
    "phase2-04-wrong-tool-arguments",
    "phase2-05-unconfirmed-refund",
    "phase2-06-repeated-step",
    "phase2-07-slow-database",
    "phase2-08-model-cost-comparison"
  ]

  const DEFAULT_SCENARIO := "phase2-03-database-timeout"

  /** The first of the ids that a message contains. */
  function FirstNamed(ids: seq<string>, otherwise: string, message: string): (id: string)
    ensures id == otherwise || (id in ids && Contains(message, id))
  {
    if ids == [] then otherwise
    else if Contains(message, ids[0]) then ids[0]
    else FirstNamed(ids[1..], otherwise, message)
  }

  /** A message that names one of the ids and none before it selects that id. */
  lemma {:induction false} FirstNamedFinds(ids: seq<string>, otherwise: string, message: string, i: nat)
    requires i < |ids| && Contains(message, ids[i])
    requires forall j :: 0 <= j < i ==> !Contains(message, ids[j])
    ensures FirstNamed(ids, otherwise, message) == ids[i]
  {
    if i > 0 {
      FirstNamedFinds(ids[1..], otherwise, message, i - 1);
    }
  }

  /** `_scenario_from_message`. */
  method ScenarioFromMessage(message: string) returns (id: string)
    ensures id == FirstNamed(EMBEDDED_SCENARIOS, DEFAULT_SCENARIO, message)
  {
    id := FirstContained(EMBEDDED_SCENARIOS, DEFAULT_SCENARIO, message);
  }

  method FirstContained(ids: seq<string>, otherwise: string, message: string) returns (id: string)
    ensures id == FirstNamed(ids, otherwise, message)
  {
    for i := 0 to |ids|
      invariant FirstNamed(ids[i..], otherwise, message) == FirstNamed(ids, otherwise, message)
    {
      assert ids[i..][0] == ids[i] && ids[i..][1..] == ids[i + 1..];
      if Contains(message, ids[i]) {
        return ids[i];
      }
    }
    return otherwise;
  }

  /** An insertion-ordered dictionary of plans. */
  type Plans = seq<(string, Plan)>

  function Lookup(plans: Plans, id: string): Option<Plan> {
    if plans == [] then None else if plans[0].0 == id then Some(plans[0].1) else Lookup(plans[1..], id)
  }

  function FirstPlan(plans: Plans): Option<Plan> {
    if plans == [] then None else Some(plans[0].1)
  }

  /** The plan a routing request selects. */
  function PlanFor(plans: Plans, messages: seq<Message>): Option<Plan> {
    var found := Lookup(plans, FirstNamed(EMBEDDED_SCENARIOS, DEFAULT_SCENARIO, Observed(messages)));
    if found.Some? then found else FirstPlan(plans)
  }

  /** A routing request that names an embedded scenario, and none before it, selects the plan stored first
      under that id; without one under the id, the first plan of all. A request that names none selects by
      the default id. */
  lemma PlanForExactly(plans: Plans, messages: seq<Message>, id: string, k: nat)
    requires NamedFirst(id, Observed(messages)) && k <= |plans| && forall j :: 0 <= j < k ==> plans[j].0 != id
    ensures k < |plans| && plans[k].0 == id ==> PlanFor(plans, messages) == Some(plans[k].1)
    ensures k == |plans| && plans != [] ==> PlanFor(plans, messages) == Some(plans[0].1)
    ensures plans == [] ==> PlanFor(plans, messages) == None
  {
    FirstNamedIs(EMBEDDED_SCENARIOS, id, Observed(messages));
    LookupAt(plans, id, k);
  }

  /** The text names this scenario before any other embedded one, or it is the default and names none. */
  predicate NamedFirst(id: string, text: string) {
    || (exists i :: 0 <= i < |EMBEDDED_SCENARIOS| && EMBEDDED_SCENARIOS[i] == id && Contains(text, id)
                    && forall j :: 0 <= j < i ==> !Contains(text, EMBEDDED_SCENARIOS[j]))
    || (id == "phase2-03-database-timeout"
        && forall j :: 0 <= j < |EMBEDDED_SCENARIOS| ==> !Contains(text, EMBEDDED_SCENARIOS[j]))
  }

  lemma FirstNamedIs(ids: seq<string>, id: string, text: string)
    requires ids == EMBEDDED_SCENARIOS && NamedFirst(id, text)
    ensures FirstNamed(ids, DEFAULT_SCENARIO, text) == id
  {
    if i :| 0 <= i < |ids| && ids[i] == id && Contains(text, id) && forall j :: 0 <= j < i ==> !Contains(text, ids[j]) {
      FirstNamedFinds(ids, DEFAULT_SCENARIO, text, i);
    } else {
      NoneNamed(ids, DEFAULT_SCENARIO, text);
    }
  }

  lemma {:induction false} NoneNamed(ids: seq<string>, otherwise: string, text: string)
    requires forall j :: 0 <= j < |ids| ==> !Contains(text, ids[j])
    ensures FirstNamed(ids, otherwise, text) == otherwise
  {
    if ids != [] {
      NoneNamed(ids[1..], otherwise, text);
    }
  }

  lemma {:induction false} LookupAt(plans: Plans, id: string, k: nat)
    requires k <= |plans| && forall j :: 0 <= j < k ==> plans[j].0 != id
    ensures k < |plans| && plans[k].0 == id ==> Lookup(plans, id) == Some(plans[k].1)
    ensures k == |plans| ==> Lookup(plans, id) == None
  {
    if k > 0 {
      LookupAt(plans[1..], id, k - 1);
    }
  }

  /** The text of any part of a request, a call apart, is seen by the routing. */
  lemma TextIsObserved(messages: seq<Message>, m: nat, p: nat, id: string)
    requires m < |messages| && p < |messages[m]|
    requires messages[m][p] in [PromptPart(id), TextPart(id), ReturnPart(Some(id)), RetryPart(Some(id))]
    ensures Contains(Observed(messages), id)
  {
    var before, parts, after := messages[..m], messages[m], messages[m + 1..];
    assert messages == before + [parts] + after;
    ObservedSplits(before + [parts], after);
    ObservedSplits(before, [parts]);
    FlattenOne(parts);
    assert Content(parts[p]) == id;
    var a, b := PartAmong(parts, p);
    assert Observed(messages) == Observed(before) + a + id + (b + Observed(after));
    ContainsExactly(Observed(messages), id);
  }

  /** The text of one part within that of all. */
  lemma PartAmong(parts: Message, p: nat) returns (a: string, b: string)
    requires p < |parts|
    ensures Flatten(Map(Content, parts)) == a + Content(parts[p]) + b
  {
    var texts := Map(Content, parts);
    MapTake(Content, parts, p);
    assert texts == texts[..p] + [texts[p]] + texts[p + 1..];
    FlattenConcat(texts[..p] + [texts[p]], texts[p + 1..]);
    FlattenConcat(texts[..p], [texts[p]]);
    FlattenOne(texts[p]);
    a, b := Flatten(texts[..p]), Flatten(texts[p + 1..]);
  }

  lemma ObservedSplits(a: seq<Message>, b: seq<Message>)
    ensures Observed(a + b) == Observed(a) + Observed(b)
  {
    FlattenConcat(a, b);
    MapConcat(Content, Flatten(a), Flatten(b));
    FlattenConcat(Map(Content, Flatten(a)), Map(Content, Flatten(b)));
  }

  /** The `scripted` closure of `install_offline_proof_model`, with the plan it remembers. */
  class ProofModel {
    const plans: Plans
    const planCost: real
    var selected: Option<Plan>

    constructor (plans: Plans, planCost: real)
      ensures this.plans == plans && this.planCost == planCost && selected == None
    {
      this.plans, this.planCost, selected := plans, planCost, None;
    }

    method Scripted(messages: seq<Message>, functionTools: bool) returns (reply: Result<Response, Crash>)
      modifies this
      ensures var step := ProofStep(plans, old(selected), Request(messages, functionTools));
              selected == step.0 &&
              match reply
              case Ok(response) => step.1 == Ok(response.part)
              case Err(crash) => step.1 == Err(crash)
    {
      if !functionTools {
        var text := ObservedText(messages);
        var scenario := ScenarioFromMessage(text);
        var chosen := Lookup(plans, scenario);
        if chosen.None? {
          chosen := FirstPlan(plans);
        }
        if chosen.None? {
          return Err(StopIteration);
        }
        selected := chosen;
        return Ok(Response(TextPart(chosen.value.routing), planCost));
      }
      var chosen := if selected.Some? then selected else FirstPlan(plans);
      if chosen.None? {
        return Err(StopIteration);
      }
      reply := AnswerScripted(chosen.value, messages);
    }
  }

  method ObservedText(messages: seq<Message>) returns (text: string)
    ensures text == Observed(messages)
  {
    text := "";
    for i := 0 to |messages|
      invariant text == Observed(messages[..i])
    {
      var parts := messages[i];
      ghost var before := text;
      for j := 0 to |parts|
        invariant text == before + Flatten(Map(Content, parts[..j]))
      {
        ContentSnoc(parts, j);
        Associative(before, Flatten(Map(Content, parts[..j])), Content(parts[j]));
        text := text + Content(parts[j]);
      }
      assert parts[..|parts|] == parts;
      assert messages[..i + 1] == messages[..i] + [parts];
      ObservedSnoc(messages[..i], parts);
    }
    assert messages[..|messages|] == messages;
  }

  lemma {:induction false} MapConcat<A, B>(f: A -> B, a: seq<A>, b: seq<A>)
    ensures Map(f, a + b) == Map(f, a) + Map(f, b)
  {
    if a == [] {
      assert a + b == b;
    } else {
      assert (a + b)[0] == a[0] && (a + b)[1..] == a[1..] + b;
      MapConcat(f, a[1..], b);
    }
  }

  lemma ContentSnoc(parts: seq<Part>, j: nat)
    requires j < |parts|
    ensures Flatten(Map(Content, parts[..j + 1])) == Flatten(Map(Content, parts[..j])) + Content(parts[j])
  {
    assert parts[..j + 1] == parts[..j] + [parts[j]];
    MapConcat(Content, parts[..j], [parts[j]]);
    assert Map(Content, [parts[j]]) == [Content(parts[j])];
    FlattenConcat(Map(Content, parts[..j]), [Content(parts[j])]);
    FlattenOne(Content(parts[j]));
  }

  lemma ObservedSnoc(messages: seq<Message>, last: Message)
    ensures Observed(messages + [last]) == Observed(messages) + Flatten(Map(Content, last))
  {
    FlattenConcat(messages, [last]);
    FlattenOne(last);
    MapConcat(Content, Flatten(messages), last);
    FlattenConcat(Map(Content, Flatten(messages)), Map(Content, last));
  }

  datatype Request = Request(messages: seq<Message>, functionTools: bool)

  /** One request to the proof model: the plan it remembers afterwards, and its reply. */
  function ProofStep(plans: Plans, selected: Option<Plan>, request: Request): (Option<Plan>, Result<Part, Crash>) {
    var chosen := if !request.functionTools then PlanFor(plans, request.messages)
                  else if selected.Some? then selected
                  else FirstPlan(plans);
    if chosen.None? then (selected, Err(StopIteration))
    else (if request.functionTools then selected else chosen,
          Respond(chosen.value, request.messages, request.functionTools))
  }

  function ProofRun(plans: Plans, selected: Option<Plan>, requests: seq<Request>): seq<Result<Part, Crash>>
    decreases |requests|
  {
    if requests == [] then []
    else
      var (next, reply) := ProofStep(plans, selected, requests[0]);
      [reply] + ProofRun(plans, next, requests[1..])
  }

  /** One turn: a routing request, then the requests of the answer agent. */
  datatype Turn = Turn(routing: seq<Message>, answers: seq<seq<Message>>)

  function Requests(turn: Turn): seq<Request> {
    [Request(turn.routing, false)] + Map(messages => Request(messages, true), turn.answers)
  }

  /** The replies of the single-plan model to one turn. */
  function SingleRun(plan: Plan, turn: Turn): seq<Result<Part, Crash>> {
    [Respond(plan, turn.routing, false)] + Map(messages => Respond(plan, messages, true), turn.answers)
  }

  function SingleRuns(plans: Plans, turns: seq<Turn>): seq<Result<Part, Crash>>
    requires plans != []
  {
    if turns == [] then []
    else SingleRun(PlanFor(plans, turns[0].routing).value, turns[0]) + SingleRuns(plans, turns[1..])
  }

  lemma {:induction false} AnswersFollowSelection(plans: Plans, plan: Plan, answers: seq<seq<Message>>,
                                                  later: seq<Request>)
    ensures ProofRun(plans, Some(plan), Map(messages => Request(messages, true), answers) + later)
         == Map(messages => Respond(plan, messages, true), answers) + ProofRun(plans, Some(plan), later)
    decreases |answers|
  {
    var asks := messages => Request(messages, true);
    var replies := messages => Respond(plan, messages, true);
    if answers == [] {
      assert Map(asks, answers) + later == later;
    } else {
      var run := Map(asks, answers) + later;
      assert run[0] == Request(answers[0], true) && run[1..] == Map(asks, answers[1..]) + later;
      AnswersFollowSelection(plans, plan, answers[1..], later);
      Associative([replies(answers[0])], Map(replies, answers[1..]), ProofRun(plans, Some(plan), later));
    }
  }

  /** Over any sequence of turns, and whatever it remembered before, the proof model gives the
      routing, the tool calls and the answers of the single-plan model for the plan of each turn. */
  lemma {:induction false} ProofModelRefinesPlans(plans: Plans, selected: Option<Plan>, turns: seq<Turn>)
    requires plans != []
    ensures ProofRun(plans, selected, Flatten(Map(Requests, turns))) == SingleRuns(plans, turns)
    decreases turns
  {
    if turns != [] {
      var turn := turns[0];
      var plan := PlanFor(plans, turn.routing).value;
      var asks := Map(messages => Request(messages, true), turn.answers);
      var later := Flatten(Map(Requests, turns[1..]));
      MapCons(Requests, turns);
      TurnStep(plans, selected, turn, plan, later);
      ProofModelRefinesPlans(plans, Some(plan), turns[1..]);
    }
  }

  lemma TurnStep(plans: Plans, selected: Option<Plan>, turn: Turn, plan: Plan, later: seq<Request>)
    requires PlanFor(plans, turn.routing) == Some(plan)
    ensures ProofRun(plans, selected, Requests(turn) + later)
         == SingleRun(plan, turn) + ProofRun(plans, Some(plan), later)
  {
    var first := Request(turn.routing, false);
    var asks := Map(messages => Request(messages, true), turn.answers);
    var run := [first] + asks + later;
    assert run[0] == first && run[1..] == asks + later;
    AnswersFollowSelection(plans, plan, turn.answers, later);
    Associative([Respond(plan, turn.routing, false)], Map(messages => Respond(plan, messages, true), turn.answers),
                ProofRun(plans, Some(plan), later));
  }
}
