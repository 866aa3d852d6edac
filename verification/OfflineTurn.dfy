/** The scripted model inside a turn of the support agent: which runs of a plan end in an answer, and
    what the agent counts as retries is what the model repeats. */
module OfflineTurn {
  import opened Wrappers
  import opened PythonText
  import opened OfflineModel
  import opened SupportDesk
  import opened SupportAgent

  // ---------------------------------------------------------------------------
  // Planned calls and tool calls
  // ---------------------------------------------------------------------------

  function FunctionName(name: ToolName): string {
    match name
    case GetOrderStatusTool => "_get_order_status"
    case GetPolicyTool => "_get_policy"
    case ProposeRefundTool => "_propose_refund"
    case ConfirmRefundTool => "_confirm_refund"
    case EscalateTool => "_escalate"
  }

  function OrderOf(tool: Tool): Option<Id> {
    match tool
    case AskOrderStatus(id, _) => Some(id)
    case AskProposal(id, _, _) => Some(id)
    case AskConfirmation(id, _) => Some(id)
    case _ => None
  }

  /** The tool that runs when the model makes this call. */
  predicate Carries(call: ToolCall, tool: Tool) {
    && call.tool == FunctionName(NameOf(tool))
    && (OrderOf(tool).Some? ==>
          "order_id" in call.arguments && call.arguments["order_id"] == Decimal(OrderOf(tool).value))
  }

  /** Which tool runs, by the function names that are registered. */
  lemma CarriesExactly(call: ToolCall, tool: Tool)
    ensures Carries(call, tool) <==>
      match tool
      case AskOrderStatus(id, _) => call.tool == "_get_order_status" && NamesOrder(call, id)
      case AskPolicy(_, _) => call.tool == "_get_policy"
      case AskProposal(id, _, _) => call.tool == "_propose_refund" && NamesOrder(call, id)
      case AskConfirmation(id, _) => call.tool == "_confirm_refund" && NamesOrder(call, id)
      case AskEscalation(_) => call.tool == "_escalate"
  {
  }

  predicate NamesOrder(call: ToolCall, id: Id) {
    "order_id" in call.arguments && call.arguments["order_id"] == Decimal(id)
  }

  /** Every intent but escalation has the escalation tool; refunds alone propose and confirm; orders are read
      for refunds and for themselves, policies for themselves alone. */
  lemma ToolsOfIntents(intent: Intent)
    ensures EscalateTool in ToolsByIntent(intent) <==> !intent.EscalateIntent?
    ensures ProposeRefundTool in ToolsByIntent(intent) <==> intent.RefundIntent?
    ensures ConfirmRefundTool in ToolsByIntent(intent) <==> intent.RefundIntent?
    ensures GetOrderStatusTool in ToolsByIntent(intent) <==> intent.RefundIntent? || intent.OrderStatusIntent?
    ensures GetPolicyTool in ToolsByIntent(intent) <==> intent.PolicyIntent?
  {
  }

  /** How the end of a tool call shows in the model's history: a refusal is an ordinary return. */
  function PartOf(end: ToolEnd): Part {
    if Transitory(end) then RetryPart(None) else ReturnPart(None)
  }

  function PartsOf(ends: seq<ToolEnd>): (parts: seq<Part>)
    ensures |parts| == |ends|
  {
    if ends == [] then [] else [PartOf(ends[0])] + PartsOf(ends[1..])
  }

  /** The tools that run are those the model calls, one per reply: the model sees the history so far, which
      grows by its call and by what became of it. */
  predicate Follows(plan: Plan, history: seq<Message>, calls: seq<Call>, ends: seq<ToolEnd>)
    requires |calls| == |ends|
    decreases |calls|
  {
    calls == [] ||
    (var reply := Respond(plan, history, true);
     && reply.Ok? && reply.value.CallPart? && Carries(reply.value.call, calls[0].tool) && calls[0].opens
     && Follows(plan, history + [[reply.value]] + [[PartOf(ends[0])]], calls[1..], ends[1..]))
  }

  predicate Gives(end: End, plan: Plan) {
    plan.answer.Some? && end == Answered(plan.answer.value)
  }

  /** The transcript holds the calls that the tools ran for, and one more request. */
  lemma {:induction false} TranscriptFollows(plan: Plan, history: seq<Message>, calls: seq<Call>, ends: seq<ToolEnd>)
    requires |calls| == |ends| && Follows(plan, history, calls, ends)
    requires Converse(plan, history, PartsOf(ends)).end.Answered?
    ensures var t := Converse(plan, history, PartsOf(ends));
            && |t.calls| == |calls| && t.requests == |calls| + 1 && Gives(t.end, plan)
            && forall k :: 0 <= k < |calls| ==> Carries(t.calls[k], calls[k].tool)
    ensures OneCallPerReply(calls)
    decreases |calls|
  {
    if calls != [] {
      var call := Respond(plan, history, true).value;
      var longer := history + [[call]] + [[PartOf(ends[0])]];
      assert PartsOf(ends)[0] == PartOf(ends[0]) && PartsOf(ends)[1..] == PartsOf(ends[1..]);
      TranscriptFollows(plan, longer, calls[1..], ends[1..]);
      var later := Converse(plan, longer, PartsOf(ends[1..]));
      assert Converse(plan, history, PartsOf(ends)) == Then(call.call, later);
      forall k | 0 <= k < |calls| ensures Carries(([call.call] + later.calls)[k], calls[k].tool) {
        assert k > 0 ==> calls[k] == calls[1..][k - 1];
      }
      assert forall k :: 0 < k < |calls| ==> calls[k] == calls[1..][k - 1];
    }
  }

  /** A model that answers has seen a return for every planned call, and a retry for every other. */
  lemma {:induction false} AnswerCountsRetries(plan: Plan, seen: nat, ends: seq<ToolEnd>)
    requires seen <= |plan.calls| && Replay(plan, seen, PartsOf(ends)).end.Answered?
    requires |Replay(plan, seen, PartsOf(ends)).calls| == |ends|
    ensures |ends| == |plan.calls| - seen + Retried(ends)
    decreases |ends|
  {
    if ends != [] {
      assert PartsOf(ends)[0] == PartOf(ends[0]) && PartsOf(ends)[1..] == PartsOf(ends[1..]);
      AnswerCountsRetries(plan, seen + if Transitory(ends[0]) then 0 else 1, ends[1..]);
    }
  }

  // ---------------------------------------------------------------------------
  // Which runs answer
  // ---------------------------------------------------------------------------

  /** The run of an answer agent reaches its draft. */
  predicate Reaches(b: Binding, calls: seq<Call>) {
    !Broke(Ends(b, Fresh(), calls)) && InvokeAll(b, Fresh(), calls).pace.requests < ANSWER_REQUEST_LIMIT
  }

  /** All called tools are registered with the agent. */
  predicate Registered(tools: set<ToolName>, calls: seq<Call>) {
    forall i :: 0 <= i < |calls| ==> NameOf(calls[i].tool) in tools
  }

  /** If nothing ended the run, the registered tools would run for the calls the model makes, up to the
      answer the plan ends in. */
  predicate Plays(b: Binding, tools: set<ToolName>, plan: Plan, calls: seq<Call>) {
    var ends := UnlimitedEnds(b, NewDesk(), calls);
    && Registered(tools, calls) && Follows(plan, [], calls, ends)
    && Converse(plan, [], PartsOf(ends)).end.Answered?
  }

  /** When a plan runs through the agent's tools, the model's answer becomes the draft exactly when no
      exception escapes a tool, no tool fails for the time being more often in a row than its retries,
      and the planned calls, the retries and the answer are eight requests at most. The model then made
      one request for each planned call, one for each retry that the agent counted, and one for the
      answer, and its calls are those the tools ran for. */
  lemma PlanAnswersExactly(b: Binding, tools: set<ToolName>, plan: Plan, calls: seq<Call>)
    requires Plays(b, tools, plan, calls)
    ensures var ends := UnlimitedEnds(b, NewDesk(), calls);
            Reaches(b, calls) <==> (forall k :: 0 <= k < |calls| ==> Bearable(calls, ends, k))
                                   && |plan.calls| + Retried(ends) + 1 <= 8
    ensures var t, after := Converse(plan, [], PartsOf(Ends(b, Fresh(), calls))), InvokeAll(b, Fresh(), calls);
            Reaches(b, calls) ==>
              && Gives(t.end, plan) && |t.calls| == |calls|
              && t.requests == |plan.calls| + after.retries + 1 == after.pace.requests + 1
              && forall k :: 0 <= k < |calls| ==> Carries(t.calls[k], calls[k].tool)
  {
    var ends := UnlimitedEnds(b, NewDesk(), calls);
    TranscriptFollows(plan, [], calls, ends);
    ConverseIsReplay(plan, [], PartsOf(ends));
    AnswerCountsRetries(plan, 0, ends);
    SurvivesExactly(b, Fresh(), calls);
    RecordsAreExact(b, Fresh(), calls);
    BearableExactly(b, calls, ends);
  }

  lemma BearableExactly(b: Binding, calls: seq<Call>, ends: seq<ToolEnd>)
    requires ends == UnlimitedEnds(b, NewDesk(), calls)
    ensures AllTolerated({}, calls, ends) <==> forall k :: 0 <= k < |calls| ==> Bearable(calls, ends, k)
  {
    forall k | 0 <= k < |calls| ensures Tolerated({}, calls, ends, k) <==> Bearable(calls, ends, k) {
      AskersAreNotPolicies(b, NewDesk(), calls, k);
      if k > 0 {
        AskersAreNotPolicies(b, NewDesk(), calls, k - 1);
      }
    }
  }

  /** No exception escapes, and only an order lookup that was not repeated already is repeated. */
  predicate Bearable(calls: seq<Call>, ends: seq<ToolEnd>, k: nat)
    requires k < |calls| == |ends|
  {
    && !ends[k].Escaped?
    && (ends[k].AskedRetry? ==>
          calls[k].tool.AskOrderStatus? && !(k > 0 && ends[k - 1].AskedRetry? && calls[k - 1].tool.AskOrderStatus?))
  }

  /** The policy tool asks for no retry. */
  lemma {:induction false} AskersAreNotPolicies(b: Binding, d: Desk, calls: seq<Call>, k: nat)
    requires k < |calls|
    ensures UnlimitedEnds(b, d, calls)[k].AskedRetry? ==> !calls[k].tool.AskPolicy?
    decreases k
  {
    if k > 0 {
      AskersAreNotPolicies(b, Unlimited(b, d, calls[0].tool).0, calls[1..], k - 1);
    }
  }

  // ---------------------------------------------------------------------------
  // The retry scenarios
  // ---------------------------------------------------------------------------

  /** Failures of the order lookup, then an answer. */
  function Lookups(id: Id, faults: seq<Fault>, order: Order): seq<Call> {
    if faults == [] then [Call(AskOrderStatus(id, Replied(Some(order))), true)]
    else [Call(AskOrderStatus(id, Raised(faults[0])), true)] + Lookups(id, faults[1..], order)
  }

  lemma {:induction false} LookupsRegistered(id: Id, faults: seq<Fault>, order: Order)
    ensures Registered(ToolsByIntent(OrderStatusIntent), Lookups(id, faults, order))
    decreases |faults|
  {
    if faults != [] {
      LookupsRegistered(id, faults[1..], order);
    }
  }

  predicate Passing(faults: seq<Fault>) {
    forall i :: 0 <= i < |faults| ==> !faults[i].Fatal?
  }

  /** The model repeats the one call of its plan until the lookup answers. */
  lemma {:induction false} LookupsFollow(b: Binding, d: Desk, plan: Plan, history: seq<Message>, id: Id,
                                         faults: seq<Fault>, order: Order)
    requires order.customer == b.customer && Passing(faults) && plan.answer.Some?
    requires |plan.calls| == 1 && Carries(plan.calls[0], AskOrderStatus(id, Replied(Some(order))))
    requires Returns(history) == 0
    ensures var calls := Lookups(id, faults, order);
            var ends := UnlimitedEnds(b, d, calls);
            Follows(plan, history, calls, ends) && Converse(plan, history, PartsOf(ends)).end.Answered?
    decreases |faults|
  {
    var calls := Lookups(id, faults, order);
    var ends := UnlimitedEnds(b, d, calls);
    var call := CallPart(plan.calls[0]);
    assert PartsOf(ends)[0] == PartOf(ends[0]) && PartsOf(ends)[1..] == PartsOf(ends[1..]);
    ReturnsGrow(history, call, PartOf(ends[0]));
    if faults != [] {
      assert calls[1..] == Lookups(id, faults[1..], order);
      LookupsFollow(b, d, plan, history + [[call]] + [[PartOf(ends[0])]], id, faults[1..], order);
    }
  }

  lemma TwoCalls(b: Binding, calls: seq<Call>, d1: Deps, end1: ToolEnd, d2: Deps, end2: ToolEnd)
    requires |calls| >= 2 && (d1, end1) == Invoke(b, Fresh(), calls[0]) && !Stops(end1)
    requires (d2, end2) == Invoke(b, d1, calls[1])
    ensures Stops(end2) ==> InvokeAll(b, Fresh(), calls) == d2 && Broke(Ends(b, Fresh(), calls))
    ensures !Stops(end2) && |calls| == 2 ==> InvokeAll(b, Fresh(), calls) == d2 && !Broke(Ends(b, Fresh(), calls))
  {
    BrokeLater(b, Fresh(), calls);
    BrokeLater(b, d1, calls[1..]);
    assert InvokeAll(b, Fresh(), calls) == InvokeAll(b, d1, calls[1..]);
    if |calls| == 2 {
      assert calls[1..][1..] == [];
      assert !Stops(end2) ==> InvokeAll(b, d1, calls[1..]) == InvokeAll(b, d2, []);
    }
  }

  lemma LookupsEnd(b: Binding, id: Id, faults: seq<Fault>, order: Order)
    requires order.customer == b.customer && Passing(faults)
    ensures var after := InvokeAll(b, Fresh(), Lookups(id, faults, order));
            && (Reaches(b, Lookups(id, faults, order)) <==> |faults| <= 1)
            && after.retries == (if |faults| <= 1 then |faults| else 2)
            && after.desk.lastOrder == (if |faults| <= 1 then Some(order) else None)
            && after.desk.toolCalls == (if |faults| <= 1 then [GetOrderStatusTool] else [])
  {
    var calls := Lookups(id, faults, order);
    var (d1, end1) := Invoke(b, Fresh(), calls[0]);
    if faults == [] {
      BrokeLater(b, Fresh(), calls);
      assert calls[1..] == [];
      assert InvokeAll(b, d1, []) == d1;
    } else {
      assert calls[1..] == Lookups(id, faults[1..], order);
      assert calls[1] == calls[1..][0];
      var (d2, end2) := Invoke(b, d1, calls[1]);
      TwoCalls(b, calls, d1, end1, d2, end2);
    }
  }

  /** The retry scenarios, with any number of failed lookups of the routed order: after none the turn
      reports the order, after one it reports the order and a retry, and after two or more the retries of
      the tool are used up and the turn answers that it failed, without having read the order. The scripted
      model with the one lookup in its plan makes just these calls. */
  lemma OrderStatusDespiteTimeouts(c: Conditions, id: Id, faults: seq<Fault>, order: Order, plan: Plan)
    requires c.routing.Some? && c.routing.value.0 == Routing(OrderStatusIntent, Some(id))
    requires c.draft.Some? && c.draft.value.0.intent.OrderStatusIntent?
    requires c.calls == Lookups(id, faults, order) && order.customer == c.binding.customer && Passing(faults)
    requires |plan.calls| == 1 && Carries(plan.calls[0], AskOrderStatus(id, Replied(Some(order)))) && plan.answer.Some?
    ensures Plays(c.binding, ToolsByIntent(OrderStatusIntent), plan, c.calls)
    ensures var t := SupportAgent.Turn(c);
            if |faults| <= 1 then
              && t.end.Responded? && t.end.response.outcome.Completed? && t.end.response.context.order == Some(order)
              && t.end.response.reason == (if |faults| == 1 then OkWithRetry else OrderStatusOk)
              && t.deps.desk.toolCalls == [GetOrderStatusTool] && t.deps.retries == |faults|
            else
              && t.end == Responded(FailedResponse()) && t.deps.desk.lastOrder.None?
              && t.deps.desk.toolCalls == [] && t.deps.retries == 2
  {
    LookupsRegistered(id, faults, order);
    LookupsFollow(c.binding, NewDesk(), plan, [], id, faults, order);
    LookupsEnd(c.binding, id, faults, order);
  }
}
