/** One turn of the support agent: the model picks tools and drafts an answer, the response is
    assembled from what the service knows. */
module SupportAgent {
  import opened Wrappers
  import opened SupportDesk

  // ---------------------------------------------------------------------------
  // Values
  // ---------------------------------------------------------------------------

  datatype Intent = RefundIntent | OrderStatusIntent | PolicyIntent | EscalateIntent

  datatype Routing = Routing(intent: Intent, orderId: Option<Id>)

  datatype Draft = Draft(intent: Intent, message: string, citations: seq<string>)

  datatype Usage = Usage(input: int, output: int, total: int, cost: Option<real>)

  datatype Citation = Citation(id: string, text: string, version: string)

  datatype Outcome = Completed | Blocked | EscalatedOutcome | Failed

  /** The model's text, or one of the fixed texts. */
  datatype Text = FromModel(message: string) | RefundDone | CouldNotComplete | HandedOver(reason: Reason)

  datatype Context = Context(routing: Routing, order: Option<Order>, policy: Option<PolicyDocument>,
                             proposal: Option<Proposal>, escalation: Option<Escalation>, citations: seq<Citation>)

  datatype Response = Response(intent: Intent, outcome: Outcome, reason: Reason, message: Text, context: Context)

  function Bare(routing: Routing): Context {
    Context(routing, None, None, None, None, [])
  }

  // ---------------------------------------------------------------------------
  // Usage
  // ---------------------------------------------------------------------------

  function NoUsage(): Usage {
    Usage(0, 0, 0, None)
  }

  function Added(a: Usage, b: Usage): Usage {
    Usage(a.input + b.input, a.output + b.output, a.total + b.total,
          if b.cost.None? then a.cost else Some((if a.cost.Some? then a.cost.value else 0.0) + b.cost.value))
  }

  /** `_UsageTracker`. */
  class UsageTracker {
    var input: int
    var output: int
    var total: int
    var cost: Option<real>

    ghost function State(): Usage
      reads this
    {
      Usage(input, output, total, cost)
    }

    constructor ()
      ensures State() == NoUsage()
    {
      input, output, total, cost := 0, 0, 0, None;
    }

    method Add(usage: Usage)
      modifies this
      ensures State() == Added(old(State()), usage)
    {
      input := input + usage.input;
      output := output + usage.output;
      total := total + usage.total;
      if usage.cost.Some? {
        cost := Some((if cost.Some? then cost.value else 0.0) + usage.cost.value);
      }
    }
  }

  // ---------------------------------------------------------------------------
  // Tools
  // ---------------------------------------------------------------------------

  /** A tool call of the model with what the dependencies will answer. */
  datatype Tool =
    | AskOrderStatus(orderId: Id, read: Reply<Option<Order>>)
    | AskPolicy(document: Reply<Option<PolicyDocument>>, search: Result<seq<Hit>, Error>)
    | AskProposal(orderId: Id, proposalId: Id, read: Reply<Option<Order>>)
    | AskConfirmation(orderId: Id, replies: RefundReplies)
    | AskEscalation(created: Reply<Id>)

  function NameOf(tool: Tool): ToolName {
    match tool
    case AskOrderStatus(_, _) => GetOrderStatusTool
    case AskPolicy(_, _) => GetPolicyTool
    case AskProposal(_, _, _) => ProposeRefundTool
    case AskConfirmation(_, _) => ConfirmRefundTool
    case AskEscalation(_) => EscalateTool
  }

  /** The tools that are registered for a routed intent, unless the application overrides them. */
  function ToolsByIntent(intent: Intent): set<ToolName> {
    match intent
    case OrderStatusIntent => {GetOrderStatusTool, EscalateTool}
    case PolicyIntent => {GetPolicyTool, EscalateTool}
    case RefundIntent => {GetOrderStatusTool, ProposeRefundTool, ConfirmRefundTool, EscalateTool}
    case EscalateIntent => {}
  }

  predicate Honest(b: Binding, tool: Tool) {
    match tool
    case AskOrderStatus(orderId, read) => ReadOf(orderId, read)
    case AskProposal(orderId, _, read) => ReadOf(orderId, read)
    case AskConfirmation(orderId, replies) => Faithful(orderId, b.customer, replies)
    case _ => true
  }

  /** A tool call of the model; `opens` tells the first call of a model reply from the later ones. */
  datatype Call = Call(tool: Tool, opens: bool)

  /** How a tool call ends: with a result, with a safe refusal, by asking the model to try again; or it
      ends the model run: the tool has no retry left, the run has no request left, or an exception
      escapes. */
  datatype ToolEnd =
    | Succeeded(name: ToolName) | Refused(error: Error) | AskedRetry
    | Exhausted | OverLimit | Escaped(error: Error)

  predicate Stops(end: ToolEnd) {
    end.Exhausted? || end.OverLimit? || end.Escaped?
  }

  const ANSWER_REQUEST_LIMIT := 8

  /** The `retries` that each tool is registered with. */
  function RetryLimit(name: ToolName): nat {
    if name.GetOrderStatusTool? || name.GetPolicyTool? then 1 else 0
  }

  /** Which errors each tool turns into a refusal. */
  predicate Caught(name: ToolName, error: Error) {
    match name
    case GetOrderStatusTool => error.OrderNotFound? || error.Forbidden?
    case GetPolicyTool => error.PolicyNotFound? || error.RetrievalFailed?
    case ProposeRefundTool => error.Forbidden? || error.OrderNotFound? || error.InvalidTransition?
    case ConfirmRefundTool => error.RefundNotConfirmed? || error.Forbidden? || error.InvalidTransition?
    case EscalateTool => false
  }

  predicate Transient(error: Error) {
    error.Faulted? && !error.fault.Fatal?
  }

  /** The policy tool retries nothing. */
  function Ending(name: ToolName, error: Error): ToolEnd {
    if Transient(error) && !name.GetPolicyTool? then AskedRetry
    else if Caught(name, error) then Refused(error)
    else Escaped(error)
  }

  /** What the agent framework keeps for a run: the model requests so far, the tools that asked for a
      retry in the reply before this one, and those that did in this one. */
  datatype Pace = Pace(requests: nat, failed: set<ToolName>, failing: set<ToolName>)

  datatype Deps = Deps(desk: Desk, retries: nat, pace: Pace)

  predicate Opens(pace: Pace, call: Call) {
    call.opens || pace.requests == 0
  }

  function Paced(pace: Pace, call: Call): Pace {
    if Opens(pace, call) then Pace(pace.requests + 1, pace.failing, {}) else pace
  }

  /** Consecutive failures of a tool, reply after reply, use up its retries. */
  function Limited(pace: Pace, name: ToolName, end: ToolEnd): ToolEnd {
    if end.AskedRetry? && (if name in pace.failed then 1 else 0) >= RetryLimit(name) then Exhausted else end
  }

  function Performed(b: Binding, d: Desk, tool: Tool): (Desk, Option<Error>) {
    match tool
    case AskOrderStatus(_, read) => var (e, r) := OrderStatusRead(b, d, read); (e, Problem(r))
    case AskPolicy(document, search) => var (e, r) := PolicyRead(b, d, document, search); (e, Problem(r))
    case AskProposal(_, proposalId, read) => var (e, r) := RefundProposedFor(b, d, proposalId, read); (e, Problem(r))
    case AskConfirmation(orderId, replies) => var (e, r) := RefundConfirmedFor(b, d, orderId, replies); (e, Problem(r))
    case AskEscalation(created) => var (e, r) := TicketOpened(d, created); (e, Problem(r))
  }

  function Problem<T>(r: Result<T, Error>): Option<Error> {
    if r.Err? then Some(r.error) else None
  }

  /** A tool call apart from the limits of the run. */
  function Unlimited(b: Binding, d: Desk, tool: Tool): (Desk, ToolEnd) {
    var (desk, problem) := Performed(b, d, tool);
    if problem.None? then (desk.(toolCalls := desk.toolCalls + [NameOf(tool)]), Succeeded(NameOf(tool)))
    else (desk, Ending(NameOf(tool), problem.value))
  }

  function Invoke(b: Binding, deps: Deps, call: Call): (Deps, ToolEnd) {
    if Opens(deps.pace, call) && deps.pace.requests >= ANSWER_REQUEST_LIMIT then (deps, OverLimit)
    else
      var pace, name := Paced(deps.pace, call), NameOf(call.tool);
      var (desk, raised) := Unlimited(b, deps.desk, call.tool);
      var end := Limited(pace, name, raised);
      (Deps(desk, deps.retries + (if raised.AskedRetry? then 1 else 0),
            if end.AskedRetry? then pace.(failing := pace.failing + {name}) else pace), end)
  }

  /** The tool calls of one model run, up to the one that ends it. */
  function InvokeAll(b: Binding, deps: Deps, calls: seq<Call>): Deps
    decreases |calls|
  {
    if calls == [] then deps
    else
      var (next, end) := Invoke(b, deps, calls[0]);
      if Stops(end) then next else InvokeAll(b, next, calls[1..])
  }

  function Ends(b: Binding, deps: Deps, calls: seq<Call>): seq<ToolEnd>
    decreases |calls|
  {
    if calls == [] then []
    else
      var (next, end) := Invoke(b, deps, calls[0]);
      if Stops(end) then [end] else [end] + Ends(b, next, calls[1..])
  }

  predicate Broke(ends: seq<ToolEnd>) {
    ends != [] && Stops(ends[|ends| - 1])
  }

  /** `AgentDeps`, with the counters that the framework keeps for the run. */
  class AgentDeps {
    const service: SupportAgentService
    var retryCount: nat
    var requests: nat
    var failed: set<ToolName>
    var failing: set<ToolName>

    ghost function State(): Deps
      reads this, service
    {
      Deps(service.State(), retryCount, Pace(requests, failed, failing))
    }

    constructor (service: SupportAgentService)
      ensures this.service == service && retryCount == 0 && requests == 0 && failed == {} && failing == {}
    {
      this.service, retryCount, requests, failed, failing := service, 0, 0, {}, {};
    }

    /** The framework's bookkeeping before a tool call. */
    method Begin(call: Call) returns (allowed: bool)
      modifies `requests, `failed, `failing
      ensures allowed <==> !(Opens(old(State()).pace, call) && old(requests) >= ANSWER_REQUEST_LIMIT)
      ensures State().pace == if allowed then Paced(old(State()).pace, call) else old(State()).pace
    {
      if call.opens || requests == 0 {
        if requests >= ANSWER_REQUEST_LIMIT {
          return false;
        }
        requests := requests + 1;
        failed, failing := failing, {};
      }
      return true;
    }

    /** The `except` clauses of a tool and `_transient_failure`, and what the framework makes of a request
        to retry. */
    method Settle(name: ToolName, error: Error) returns (end: ToolEnd)
      modifies `retryCount, `failing
      ensures end == Limited(old(State()).pace, name, Ending(name, error))
      ensures retryCount == old(retryCount) + if Ending(name, error).AskedRetry? then 1 else 0
      ensures failing == if end.AskedRetry? then old(failing) + {name} else old(failing)
    {
      if Transient(error) && !name.GetPolicyTool? {
        retryCount := retryCount + 1;
        if (if name in failed then 1 else 0) >= RetryLimit(name) {
          return Exhausted;
        }
        failing := failing + {name};
        return AskedRetry;
      }
      return if Caught(name, error) then Refused(error) else Escaped(error);
    }

    /** The five tool functions: the service call, then its errors or the record of its success. */
    method CallTool(call: Call) returns (end: ToolEnd)
      modifies this, service
      ensures (State(), end) == Invoke(service.binding, old(State()), call)
    {
      var allowed := Begin(call);
      if !allowed {
        return OverLimit;
      }
      var problem := Perform(call.tool);
      if problem.Some? {
        end := Settle(NameOf(call.tool), problem.value);
        return;
      }
      service.RecordToolCall(NameOf(call.tool));
      return Succeeded(NameOf(call.tool));
    }

    method Perform(tool: Tool) returns (problem: Option<Error>)
      modifies service
      ensures (service.State(), problem) == Performed(service.binding, old(service.State()), tool)
    {
      match tool {
        case AskOrderStatus(_, read) =>
          var r := service.GetOrderStatus(read);
          problem := Problem(r);
        case AskPolicy(document, search) =>
          var r := service.GetPolicy(document, search);
          problem := Problem(r);
        case AskProposal(_, proposalId, read) =>
          var r := service.ProposeRefund(proposalId, read);
          problem := Problem(r);
        case AskConfirmation(orderId, replies) =>
          var r := service.ConfirmRefund(orderId, replies);
          problem := Problem(r);
        case AskEscalation(created) =>
          var r := service.Escalate(created);
          problem := Problem(r);
      }
    }

    /** The tools a model run calls, one after another. */
    method CallTools(calls: seq<Call>) returns (broke: bool)
      modifies this, service
      ensures State() == InvokeAll(service.binding, old(State()), calls)
      ensures broke == Broke(Ends(service.binding, old(State()), calls))
    {
      ghost var before := State();
      for i := 0 to |calls|
        invariant InvokeAll(service.binding, State(), calls[i..]) == InvokeAll(service.binding, before, calls)
        invariant Broke(Ends(service.binding, State(), calls[i..])) == Broke(Ends(service.binding, before, calls))
      {
        assert calls[i..][0] == calls[i] && calls[i..][1..] == calls[i + 1..];
        ghost var deps := State();
        BrokeLater(service.binding, deps, calls[i..]);
        var end := CallTool(calls[i]);
        if Stops(end) {
          return true;
        }
      }
      assert calls[|calls|..] == [];
      return false;
    }
  }

  /** A run breaks at its first call or later. */
  lemma BrokeLater(b: Binding, deps: Deps, calls: seq<Call>)
    requires calls != []
    ensures var (next, end) := Invoke(b, deps, calls[0]);
            Broke(Ends(b, deps, calls)) == (Stops(end) || Broke(Ends(b, next, calls[1..])))
  {
    var (next, end) := Invoke(b, deps, calls[0]);
    var later := Ends(b, next, calls[1..]);
    if later != [] {
      assert ([end] + later)[|later|] == later[|later| - 1];
    }
  }

  // ---------------------------------------------------------------------------
  // Routing and escalation
  // ---------------------------------------------------------------------------

  /** `plan_turn`: the reason to escalate without a model, if there is one. */
  function EscalateAtOnce(routing: Routing): Option<Reason> {
    match routing.intent
    case EscalateIntent => Some(EscalatedReason)
    case OrderStatusIntent => if routing.orderId.None? then Some(EscalatedMissingReference) else None
    case RefundIntent => if routing.orderId.None? then Some(RefundBlockedMissingReference) else None
    case PolicyIntent => None
  }

  function HandOver(routing: Routing, ticket: Id, reason: Reason): Response {
    Response(EscalateIntent, EscalatedOutcome, reason, HandedOver(reason),
             Bare(routing).(escalation := Some(Escalation(ticket, reason))))
  }

  function FailedResponse(): Response {
    Response(EscalateIntent, Failed, ModelError, CouldNotComplete, Bare(Routing(EscalateIntent, None)))
  }

  // ---------------------------------------------------------------------------
  // Citations
  // ---------------------------------------------------------------------------

  /** `by_id.get`: of hits with the same id the last one counts. */
  function HitFor(hits: seq<Hit>, id: string): (h: Option<Hit>)
    ensures h.Some? ==> h.value in hits && h.value.chunk == id
    ensures h.None? ==> forall k :: 0 <= k < |hits| ==> hits[k].chunk != id
  {
    if hits == [] then None
    else if hits[|hits| - 1].chunk == id then Some(hits[|hits| - 1])
    else HitFor(hits[..|hits| - 1], id)
  }

  lemma {:induction false} HitForIsLast(hits: seq<Hit>, id: string, k: nat)
    requires k < |hits| && hits[k].chunk == id && forall j :: k < j < |hits| ==> hits[j].chunk != id
    ensures HitFor(hits, id) == Some(hits[k])
  {
    if k < |hits| - 1 {
      HitForIsLast(hits[..|hits| - 1], id, k);
    }
  }

  /** The citations, or what stops them: an unknown id, or a hit that fails the validation of a citation
      because its version is empty. */
  datatype Cited = Citations(list: seq<Citation>) | Hallucinated | Invalid

  /** The first id that does not resolve decides. */
  function Resolved(ids: seq<string>, hits: seq<Hit>): Cited {
    if ids == [] then Citations([])
    else
      var init, hit := Resolved(ids[..|ids| - 1], hits), HitFor(hits, ids[|ids| - 1]);
      if !init.Citations? then init
      else if hit.None? then Hallucinated
      else if hit.value.version == "" then Invalid
      else Citations(init.list + [Citation(ids[|ids| - 1], hit.value.text, hit.value.version)])
  }

  function CitedAnswer(ids: seq<string>, hits: seq<Hit>): Cited {
    if ids == [] then Hallucinated else Resolved(ids, hits)
  }

  method IndexHits(hits: seq<Hit>) returns (byId: map<string, Hit>)
    ensures forall id :: (id in byId <==> HitFor(hits, id).Some?)
    ensures forall id :: id in byId ==> HitFor(hits, id) == Some(byId[id])
  {
    byId := map[];
    for i := 0 to |hits|
      invariant forall id :: (id in byId <==> HitFor(hits[..i], id).Some?)
      invariant forall id :: id in byId ==> HitFor(hits[..i], id) == Some(byId[id])
    {
      assert hits[..i + 1][..i] == hits[..i];
      byId := byId[hits[i].chunk := hits[i]];
    }
    assert hits[..|hits|] == hits;
  }

  /** `build_cited_policy_answer`. */
  method BuildCitedPolicyAnswer(ids: seq<string>, hits: seq<Hit>) returns (cited: Cited)
    ensures cited == CitedAnswer(ids, hits)
  {
    var byId := IndexHits(hits);
    var found: seq<Citation> := [];
    for i := 0 to |ids|
      invariant Resolved(ids[..i], hits) == Citations(found) && |found| == i
    {
      assert ids[..i + 1][..i] == ids[..i];
      if ids[i] !in byId {
        ProblemStays(ids, hits, i + 1);
        return Hallucinated;
      }
      var hit := byId[ids[i]];
      if hit.version == "" {
        ProblemStays(ids, hits, i + 1);
        return Invalid;
      }
      found := found + [Citation(ids[i], hit.text, hit.version)];
    }
    assert ids[..|ids|] == ids;
    return if found == [] then Hallucinated else Citations(found);
  }

  lemma {:induction false} ProblemStays(ids: seq<string>, hits: seq<Hit>, i: nat)
    requires i <= |ids| && !Resolved(ids[..i], hits).Citations?
    ensures Resolved(ids, hits) == Resolved(ids[..i], hits)
    decreases |ids| - i
  {
    if i < |ids| {
      assert ids[..i + 1][..i] == ids[..i];
      ProblemStays(ids, hits, i + 1);
    } else {
      assert ids[..i] == ids;
    }
  }

  /** Citations that resolve are those asked for, in order, each the text of a retrieved chunk with a
      version. */
  lemma {:induction false} ResolvedAt(ids: seq<string>, hits: seq<Hit>, k: nat)
    requires Resolved(ids, hits).Citations? && k < |ids|
    ensures |Resolved(ids, hits).list| == |ids| && CitesOne(Resolved(ids, hits).list[k], ids[k], hits)
    decreases |ids|
  {
    var last := |ids| - 1;
    ResolvedLength(ids[..last], hits);
    if k < last {
      ResolvedAt(ids[..last], hits, k);
    }
  }

  lemma {:induction false} ResolvedLength(ids: seq<string>, hits: seq<Hit>)
    requires Resolved(ids, hits).Citations?
    ensures |Resolved(ids, hits).list| == |ids|
    decreases |ids|
  {
    if ids != [] {
      ResolvedLength(ids[..|ids| - 1], hits);
    }
  }

  ghost predicate CitesOne(c: Citation, id: string, hits: seq<Hit>) {
    && c.id == id && c.version != ""
    && exists h :: h in hits && h.chunk == id && h.text == c.text && h.version == c.version
  }

  /** What decides is the first id without a usable hit: citations come exactly when every id has a hit
      with a version. */
  lemma {:induction false} ResolvesExactly(ids: seq<string>, hits: seq<Hit>)
    ensures Resolved(ids, hits).Citations? <==> forall k :: 0 <= k < |ids| ==> Usable(HitFor(hits, ids[k]))
    ensures Resolved(ids, hits).Invalid? <==>
              exists k :: 0 <= k < |ids| && VersionMissing(HitFor(hits, ids[k]))
                          && forall j :: 0 <= j < k ==> Usable(HitFor(hits, ids[j]))
    decreases |ids|
  {
    if ids != [] {
      var init, last := ids[..|ids| - 1], |ids| - 1;
      ResolvesExactly(init, hits);
      assert forall k :: 0 <= k < last ==> init[k] == ids[k];
    }
  }

  predicate Usable(hit: Option<Hit>) {
    hit.Some? && hit.value.version != ""
  }

  predicate VersionMissing(hit: Option<Hit>) {
    hit.Some? && hit.value.version == ""
  }

  // ---------------------------------------------------------------------------
  // Assembling the response
  // ---------------------------------------------------------------------------

  function Grounding(d: Desk, draft: Draft, retriever: bool, acceptedAnswers: bool): Cited {
    if d.policyVersion != Some(ACCEPTED_POLICY_VERSION) || !acceptedAnswers || GetPolicyTool !in d.toolCalls then
      Hallucinated
    else if retriever then CitedAnswer(draft.citations, d.lastHits)
    else Citations([])
  }

  /** `_assemble`: the branches follow the intent of the draft. The validation of a citation raises. */
  function Assembled(deps: Deps, routing: Routing, draft: Draft, retriever: bool, acceptedAnswers: bool)
    : Result<Response, Error>
  {
    var d, text, context := deps.desk, FromModel(draft.message), Bare(routing);
    match draft.intent
    case OrderStatusIntent =>
      var reason := if d.lastOrder.None? then OrderMissing else if deps.retries > 0 then OkWithRetry else OrderStatusOk;
      Ok(Response(draft.intent, Completed, reason, text, context.(order := d.lastOrder)))
    case PolicyIntent =>
      (match Grounding(d, draft, retriever, acceptedAnswers)
       case Citations(list) =>
         Ok(Response(draft.intent, Completed, PolicyAnswer, text, context.(policy := d.lastPolicy, citations := list)))
       case Hallucinated =>
         Ok(Response(draft.intent, Blocked, PolicyAnswerUngrounded, text, context.(policy := d.lastPolicy)))
       case Invalid => Err(InvalidCitation))
    case RefundIntent =>
      var refunded, proposal := ConfirmedRefundFor(d, routing.orderId), PendingProposal(d, routing.orderId);
      Ok(if refunded.Some? then
           Response(draft.intent, Completed, RefundConfirmed, RefundDone, context.(order := refunded))
         else if proposal.Some? then
           Response(draft.intent, Completed, RefundProposed, text, context.(proposal := proposal))
         else if d.lastToolError.Some? then Response(draft.intent, Blocked, d.lastToolError.value, text, context)
         else Response(draft.intent, Blocked, RefundBlockedUnconfirmed, text, context))
    case EscalateIntent =>
      Ok(if d.lastEscalation.None? then Response(draft.intent, Blocked, ToolError, text, context)
         else
           Response(draft.intent, EscalatedOutcome, EscalatedReason, text, context.(escalation := d.lastEscalation)))
  }

  // ---------------------------------------------------------------------------
  // The turn
  // ---------------------------------------------------------------------------

  /** Everything a turn depends on: the request and its binding, what the routing and the answer model
      produce (nothing on any failure), and the database answers to the calls outside the tools. */
  datatype Conditions = Conditions(binding: Binding, acceptedAnswers: bool, routing: Option<(Routing, Usage)>,
                                   calls: seq<Call>, draft: Option<(Draft, Usage)>, autoConfirm: RefundReplies,
                                   ticket: Reply<Id>)

  datatype TurnEnd = Responded(response: Response) | RaisedOut(error: Error)

  datatype TurnResult = TurnResult(deps: Deps, usage: Usage, end: TurnEnd)

  function Fresh(): Deps {
    Deps(NewDesk(), 0, Pace(0, {}, {}))
  }

  predicate MustAutoConfirm(b: Binding, routing: Routing, d: Desk) {
    && routing.intent.RefundIntent? && b.refundConfirmed && PendingProposal(d, routing.orderId).Some?
    && ConfirmedRefundFor(d, routing.orderId).None?
  }

  /** The model run returns no draft: a call ended it, no request was left for the answer, or the model
      failed. */
  predicate NoDraft(c: Conditions) {
    || Broke(Ends(c.binding, Fresh(), c.calls)) || c.draft.None?
    || InvokeAll(c.binding, Fresh(), c.calls).pace.requests >= ANSWER_REQUEST_LIMIT
  }

  function EndOf(r: Result<Response, Error>): TurnEnd {
    if r.Ok? then Responded(r.value) else RaisedOut(r.error)
  }

  function Answer(c: Conditions, routing: Routing, used: Usage): TurnResult {
    var b, deps := c.binding, InvokeAll(c.binding, Fresh(), c.calls);
    if NoDraft(c) then TurnResult(deps, used, Responded(FailedResponse()))
    else
      var (draft, more) := c.draft.value;
      if MustAutoConfirm(b, routing, deps.desk) then
        var (desk, r) := RefundConfirmedFor(b, deps.desk, routing.orderId.value, c.autoConfirm);
        var after := deps.(desk := desk);
        TurnResult(after, Added(used, more),
                   if r.Err? then RaisedOut(r.error)
                   else EndOf(Assembled(after, routing, draft, b.retriever, c.acceptedAnswers)))
      else
        TurnResult(deps, Added(used, more), EndOf(Assembled(deps, routing, draft, b.retriever, c.acceptedAnswers)))
  }

  function Turn(c: Conditions): TurnResult {
    if c.routing.None? then TurnResult(Fresh(), NoUsage(), Responded(FailedResponse()))
    else
      var (routing, spent) := c.routing.value;
      var used, reason := Added(NoUsage(), spent), EscalateAtOnce(routing);
      if reason.None? then Answer(c, routing, used)
      else
        var (desk, r) := TicketOpened(NewDesk(), c.ticket);
        TurnResult(Fresh().(desk := desk), used,
                   if r.Err? then RaisedOut(r.error) else Responded(HandOver(routing, r.value, reason.value)))
  }

  class PydanticAISupportAgent {
    const retriever: bool
    const acceptedAnswers: bool
    var lastGrounded: Option<bool>

    constructor (retriever: bool, acceptedAnswers: bool)
      ensures this.retriever == retriever && this.acceptedAnswers == acceptedAnswers
    {
      this.retriever, this.acceptedAnswers, lastGrounded := retriever, acceptedAnswers, None;
    }

    /** `handle`: every turn works on a service, a dependency object and a tracker of its own. */
    method Handle(c: Conditions) returns (end: TurnEnd, deps: AgentDeps, usage: UsageTracker)
      requires c.binding.retriever == retriever && c.acceptedAnswers == acceptedAnswers
      modifies this
      ensures fresh(deps) && fresh(deps.service) && fresh(usage)
      ensures TurnResult(deps.State(), usage.State(), end) == Turn(c)
    {
      lastGrounded := None;
      var service := new SupportAgentService(c.binding);
      deps := new AgentDeps(service);
      usage := new UsageTracker();
      if c.routing.None? {
        end := Responded(FailedResponse());
      } else {
        end := HandleRouted(c, deps, usage);
      }
    }

    method HandleRouted(c: Conditions, deps: AgentDeps, usage: UsageTracker) returns (end: TurnEnd)
      requires c.binding.retriever == retriever && c.acceptedAnswers == acceptedAnswers && c.routing.Some?
      requires deps.State() == Fresh() && deps.service.binding == c.binding && usage.State() == NoUsage()
      modifies this, deps, deps.service, usage
      ensures TurnResult(deps.State(), usage.State(), end) == Turn(c)
    {
      var (routing, spent) := c.routing.value;
      usage.Add(spent);
      var reason := EscalateAtOnce(routing);
      if reason.Some? {
        var ticket := deps.service.Escalate(c.ticket);
        end := if ticket.Err? then RaisedOut(ticket.error)
               else Responded(HandOver(routing, ticket.value, reason.value));
      } else {
        end := RunAnswer(c, routing, deps, usage);
      }
    }

    /** `_answer`. */
    method RunAnswer(c: Conditions, routing: Routing, deps: AgentDeps, usage: UsageTracker) returns (end: TurnEnd)
      requires c.binding.retriever == retriever && c.acceptedAnswers == acceptedAnswers
      requires deps.State() == Fresh() && deps.service.binding == c.binding
      requires c.routing.Some? && EscalateAtOnce(routing).None?
      modifies this, deps, deps.service, usage
      ensures TurnResult(deps.State(), usage.State(), end) == Answer(c, routing, old(usage.State()))
    {
      var broke := deps.CallTools(c.calls);
      if broke || c.draft.None? || deps.requests >= ANSWER_REQUEST_LIMIT {
        return Responded(FailedResponse());
      }
      var (draft, more) := c.draft.value;
      usage.Add(more);
      var d := deps.service;
      if routing.intent.RefundIntent? && c.binding.refundConfirmed
         && d.PendingFor(routing.orderId).Some? && d.RefundFor(routing.orderId).None? {
        var refunded := d.ConfirmRefund(routing.orderId.value, c.autoConfirm);
        if refunded.Err? {
          return RaisedOut(refunded.error);
        }
      }
      var response := Assemble(routing, draft, deps);
      return if response.Ok? then Responded(response.value) else RaisedOut(response.error);
    }

    /** `_assemble`. */
    method Assemble(routing: Routing, draft: Draft, deps: AgentDeps) returns (response: Result<Response, Error>)
      modifies this
      ensures response == Assembled(deps.State(), routing, draft, retriever, acceptedAnswers)
      ensures lastGrounded == if draft.intent.PolicyIntent? && response.Ok?
                              then Some(response.value.reason.PolicyAnswer?)
                              else old(lastGrounded)
    {
      var d := deps.service;
      var context := Bare(routing);
      match draft.intent
      case OrderStatusIntent =>
        var reason := if d.lastOrder.None? then OrderMissing
                      else if deps.retryCount > 0 then OkWithRetry
                      else OrderStatusOk;
        return Ok(Response(draft.intent, Completed, reason, FromModel(draft.message), context.(order := d.lastOrder)));
      case PolicyIntent =>
        context := context.(policy := d.lastPolicy);
        var grounded :=
          d.policyVersion == Some(ACCEPTED_POLICY_VERSION) && acceptedAnswers && GetPolicyTool in d.toolCalls;
        if grounded && retriever {
          var cited := BuildCitedPolicyAnswer(draft.citations, d.lastHits);
          match cited {
            case Invalid => return Err(InvalidCitation);
            case Hallucinated => grounded := false;
            case Citations(list) => context := context.(citations := list);
          }
        }
        lastGrounded := Some(grounded);
        return Ok(if grounded then Response(draft.intent, Completed, PolicyAnswer, FromModel(draft.message), context)
                  else Response(draft.intent, Blocked, PolicyAnswerUngrounded, FromModel(draft.message), context));
      case RefundIntent =>
        var refunded, proposal := d.RefundFor(routing.orderId), d.PendingFor(routing.orderId);
        if refunded.Some? {
          return Ok(Response(draft.intent, Completed, RefundConfirmed, RefundDone, context.(order := refunded)));
        }
        if proposal.Some? {
          return Ok(Response(draft.intent, Completed, RefundProposed, FromModel(draft.message),
                             context.(proposal := proposal)));
        }
        var reason := if d.lastToolError.Some? then d.lastToolError.value else RefundBlockedUnconfirmed;
        return Ok(Response(draft.intent, Blocked, reason, FromModel(draft.message), context));
      case EscalateIntent =>
        if d.lastEscalation.None? {
          return Ok(Response(draft.intent, Blocked, ToolError, FromModel(draft.message), context));
        }
        return Ok(Response(draft.intent, EscalatedOutcome, EscalatedReason, FromModel(draft.message),
                           context.(escalation := d.lastEscalation)));
    }
  }

  // ---------------------------------------------------------------------------
  // What every turn guarantees
  // ---------------------------------------------------------------------------

  lemma InvokeKeepsGuards(b: Binding, deps: Deps, call: Call)
    requires Guarded(b, deps.desk) && Honest(b, call.tool)
    ensures Guarded(b, Invoke(b, deps, call).0.desk)
  {
    var tool := call.tool;
    var desk := Performed(b, deps.desk, tool).0;
    match tool {
      case AskOrderStatus(_, read) =>
        ReadsKeepGuards(b, deps.desk, read, Raised(Fatal), Err(RetrievalFailed), Raised(Fatal), NameOf(tool));
      case AskPolicy(document, search) =>
        ReadsKeepGuards(b, deps.desk, Raised(Fatal), document, search, Raised(Fatal), NameOf(tool));
      case AskProposal(_, proposalId, read) => ProposeKeepsGuards(b, deps.desk, proposalId, read);
      case AskConfirmation(orderId, replies) => ConfirmKeepsGuards(b, deps.desk, orderId, replies);
      case AskEscalation(created) =>
        ReadsKeepGuards(b, deps.desk, Raised(Fatal), Raised(Fatal), Err(RetrievalFailed), created, NameOf(tool));
    }
    ReadsKeepGuards(b, desk, Raised(Fatal), Raised(Fatal), Err(RetrievalFailed), Raised(Fatal), NameOf(tool));
  }

  predicate AllHonest(b: Binding, calls: seq<Call>) {
    forall i :: 0 <= i < |calls| ==> Honest(b, calls[i].tool)
  }

  lemma {:induction false} InvokeAllKeepsGuards(b: Binding, deps: Deps, calls: seq<Call>)
    requires Guarded(b, deps.desk) && AllHonest(b, calls)
    ensures Guarded(b, InvokeAll(b, deps, calls).desk)
    decreases |calls|
  {
    if calls != [] {
      InvokeKeepsGuards(b, deps, calls[0]);
      InvokeAllKeepsGuards(b, Invoke(b, deps, calls[0]).0, calls[1..]);
    }
  }

  /** The database answers keep to what its queries ask for. */
  predicate HonestTurn(c: Conditions) {
    && AllHonest(c.binding, c.calls)
    && (c.routing.Some? && c.routing.value.0.orderId.Some? ==>
          Faithful(c.routing.value.0.orderId.value, c.binding.customer, c.autoConfirm))
  }

  lemma TurnKeepsGuards(c: Conditions)
    requires HonestTurn(c)
    ensures Guarded(c.binding, Turn(c).deps.desk)
  {
    var b := c.binding;
    InvokeAllKeepsGuards(b, Fresh(), c.calls);
    if c.routing.Some? && c.routing.value.0.orderId.Some? {
      ConfirmKeepsGuards(b, InvokeAll(b, Fresh(), c.calls).desk, c.routing.value.0.orderId.value, c.autoConfirm);
    }
    ReadsKeepGuards(b, NewDesk(), Raised(Fatal), Raised(Fatal), Err(RetrievalFailed), c.ticket, EscalateTool);
  }

  predicate SaysRefunded(r: Result<Response, Error>) {
    r.Ok? && r.value.reason.RefundConfirmed?
  }

  /** A response says that a refund was confirmed exactly when the draft is about a refund, the routed
      order was confirmed in this turn, and that order was the last one looked up. */
  lemma ConfirmedExactly(b: Binding, deps: Deps, routing: Routing, draft: Draft, retriever: bool, accepted: bool)
    requires Guarded(b, deps.desk)
    ensures SaysRefunded(Assembled(deps, routing, draft, retriever, accepted))
       <==> && draft.intent.RefundIntent? && routing.orderId.Some? && routing.orderId.value in deps.desk.confirmed
            && deps.desk.lastOrder.Some? && deps.desk.lastOrder.value.id == routing.orderId.value
  {
  }

  /** When a turn answers that the refund was confirmed, the customer had confirmed it in the request, a
      proposal came first, the database carried the refund out for this customer, and the order in the
      answer is the routed one. */
  lemma ConfirmedRefundsAreReal(c: Conditions)
    requires HonestTurn(c) && Turn(c).end.Responded? && Turn(c).end.response.reason.RefundConfirmed?
    ensures c.binding.refundConfirmed && c.routing.Some? && c.routing.value.0.orderId.Some?
    ensures var id, desk := c.routing.value.0.orderId.value, Turn(c).deps.desk;
            Done(c.binding, desk, id) && id in desk.proposed
    ensures var context := Turn(c).end.response.context;
            && context.order.Some? && context.order.value.id == c.routing.value.0.orderId.value
            && context.order.value.customer == c.binding.customer
  {
    TurnKeepsGuards(c);
    var b, desk, routing := c.binding, Turn(c).deps.desk, c.routing.value.0;
    var draft := c.draft.value.0;
    ConfirmedExactly(b, Turn(c).deps, routing, draft, b.retriever, c.acceptedAnswers);
    var id := routing.orderId.value;
    assert Done(b, desk, id);
    var k :| 0 <= k < |desk.executed| && desk.executed[k].id == id;
  }

  /** Without the customer's confirmation no turn refunds anything, however it ends; and no order is
      refunded that was not proposed first. */
  lemma NoRefundWithoutConsent(c: Conditions)
    requires HonestTurn(c)
    ensures !c.binding.refundConfirmed ==> Turn(c).deps.desk.executed == []
    ensures forall k :: 0 <= k < |Turn(c).deps.desk.executed| ==>
              Turn(c).deps.desk.executed[k].id in Turn(c).deps.desk.proposed
  {
    TurnKeepsGuards(c);
  }

  /** Three calls in a row that all return to the model. */
  lemma ThreeCalls(b: Binding, x: Call, y: Call, z: Call, d1: Deps, d2: Deps, d3: Deps)
    requires Invoke(b, Fresh(), x).0 == d1 && !Stops(Invoke(b, Fresh(), x).1)
    requires Invoke(b, d1, y).0 == d2 && !Stops(Invoke(b, d1, y).1)
    requires Invoke(b, d2, z).0 == d3 && !Stops(Invoke(b, d2, z).1)
    ensures InvokeAll(b, Fresh(), [x, y, z]) == d3 && !Broke(Ends(b, Fresh(), [x, y, z]))
  {
    assert [x, y, z][1..] == [y, z] && [y, z][1..] == [z] && [z][1..] == [];
    assert InvokeAll(b, d2, [z]) == InvokeAll(b, d3, []);
    assert InvokeAll(b, d1, [y, z]) == InvokeAll(b, d2, [z]);
    BrokeLater(b, Fresh(), [x, y, z]);
    BrokeLater(b, d1, [y, z]);
    BrokeLater(b, d2, [z]);
  }

  /** A turn that proposes and confirms a refund of order 1 and then looks at order 2. */
  function LookingElsewhere(): Conditions {
    var mine, refunded, other := Order(1, 7, Delivered, 100), Order(1, 7, Refunded, 100), Order(2, 7, Shipped, 50);
    var replies := RefundReplies(Replied(Some(mine)), Replied(Some(refunded)), Replied(None));
    Conditions(Binding(7, true, false), true, Some((Routing(RefundIntent, Some(1)), NoUsage())),
               [Call(AskProposal(1, 9, Replied(Some(mine))), true), Call(AskConfirmation(1, replies), true),
                Call(AskOrderStatus(2, Replied(Some(other))), true)],
               Some((Draft(RefundIntent, "done", []), NoUsage())), replies, Raised(Fatal))
  }

  /** The first two calls refund order 1, the third leaves order 2 as the last one looked up. */
  lemma CallsLookElsewhere(b: Binding, x: Call, y: Call, z: Call, replies: RefundReplies, mine: Order, other: Order)
    returns (d: Deps)
    requires b == Binding(7, true, false) && mine == Order(1, 7, Delivered, 100) && other == Order(2, 7, Shipped, 50)
    requires replies.read == Replied(Some(mine)) && replies.update == Replied(Some(Order(1, 7, Refunded, 100)))
    requires x == Call(AskProposal(1, 9, Replied(Some(mine))), true) && y == Call(AskConfirmation(1, replies), true)
    requires z == Call(AskOrderStatus(2, Replied(Some(other))), true)
    ensures InvokeAll(b, Fresh(), [x, y, z]) == d && !Broke(Ends(b, Fresh(), [x, y, z]))
    ensures d.desk.executed == [Order(1, 7, Refunded, 100)] && d.desk.lastOrder == Some(other)
    ensures d.desk.pending == map[] && d.desk.lastToolError == None && d.pace.requests == 3
  {
    var d1 := Invoke(b, Fresh(), x).0;
    var d2 := Invoke(b, d1, y).0;
    assert d2.desk.pending == map[];
    d := Invoke(b, d2, z).0;
    ThreeCalls(b, x, y, z, d1, d2, d);
  }

  /** A confirmed refund can go unreported: here the answer says that the refund is blocked although the
      database carried it out. */
  lemma MaskedRefund()
    ensures var c := LookingElsewhere();
            && HonestTurn(c) && Done(c.binding, Turn(c).deps.desk, 1)
            && Turn(c).end.Responded? && Turn(c).end.response.reason.RefundBlockedUnconfirmed?
  {
    var c := LookingElsewhere();
    var d := CallsLookElsewhere(c.binding, c.calls[0], c.calls[1], c.calls[2], c.autoConfirm,
                                Order(1, 7, Delivered, 100), Order(2, 7, Shipped, 50));
    assert c.calls == [c.calls[0], c.calls[1], c.calls[2]];
    assert Turn(c).deps == d;
    assert d.desk.executed[0].id == 1;
  }

  // ---------------------------------------------------------------------------
  // What the calls of a turn decide
  // ---------------------------------------------------------------------------

  predicate Proposes(call: Call, end: ToolEnd, id: Id) {
    call.tool.AskProposal? && call.tool.orderId == id && end.Succeeded?
  }

  predicate Confirms(call: Call, end: ToolEnd, id: Id) {
    call.tool.AskConfirmation? && call.tool.orderId == id && end.Succeeded?
  }

  /** The order a call leaves as the last one looked up. A refused proposal has read its order, too. */
  function LookedAt(b: Binding, call: Call, end: ToolEnd): Option<Id> {
    match call.tool
    case AskOrderStatus(id, read) => if OwnedOrder(b.customer, read).Ok? then Some(id) else None
    case AskProposal(id, _, read) => if OwnedOrder(b.customer, read).Ok? then Some(id) else None
    case AskConfirmation(id, _) => if end.Succeeded? then Some(id) else None
    case _ => None
  }

  /** One of the first `n` calls confirmed the refund of this order. */
  predicate ConfirmedIn(calls: seq<Call>, ends: seq<ToolEnd>, n: nat, id: Id)
    requires n <= |calls| == |ends|
  {
    exists k :: 0 <= k < n && Confirms(calls[k], ends[k], id)
  }

  /** One of the first `n` calls proposed a refund of this order, and none after it confirmed one. */
  predicate StandingIn(calls: seq<Call>, ends: seq<ToolEnd>, n: nat, id: Id)
    requires n <= |calls| == |ends|
  {
    exists k :: 0 <= k < n && Proposes(calls[k], ends[k], id)
                && forall j :: k < j < n ==> !Confirms(calls[j], ends[j], id)
  }

  /** Of the first `n` calls, the last that looked up any order looked up this one. */
  predicate LastLookedIn(b: Binding, calls: seq<Call>, ends: seq<ToolEnd>, n: nat, id: Id)
    requires n <= |calls| == |ends|
  {
    exists k :: 0 <= k < n && LookedAt(b, calls[k], ends[k]) == Some(id)
                && forall j :: k < j < n ==> LookedAt(b, calls[j], ends[j]).None?
  }

  /** A run that no call ends has one end for each call; any call finds what the calls before it left. */
  lemma {:induction false} CallAt(b: Binding, deps: Deps, calls: seq<Call>, n: nat)
    requires !Broke(Ends(b, deps, calls)) && n < |calls|
    ensures |Ends(b, deps, calls)| == |calls|
    ensures !Stops(Ends(b, deps, calls)[n])
    ensures (InvokeAll(b, deps, calls[..n + 1]), Ends(b, deps, calls)[n])
         == Invoke(b, InvokeAll(b, deps, calls[..n]), calls[n])
    decreases n, |calls|
  {
    var (next, end) := Invoke(b, deps, calls[0]);
    BrokeLater(b, deps, calls);
    EveryCallEnds(b, deps, calls);
    assert calls[..n + 1][0] == calls[0] && calls[..n + 1][1..] == calls[1..][..n];
    if n > 0 {
      CallAt(b, next, calls[1..], n - 1);
      assert calls[..n][0] == calls[0] && calls[..n][1..] == calls[1..][..n - 1];
      assert InvokeAll(b, deps, calls[..n]) == InvokeAll(b, next, calls[1..][..n - 1]);
    } else {
      assert calls[1..][..0] == [] && calls[..0] == [];
    }
  }

  lemma {:induction false} EveryCallEnds(b: Binding, deps: Deps, calls: seq<Call>)
    requires !Broke(Ends(b, deps, calls))
    ensures |Ends(b, deps, calls)| == |calls|
    decreases |calls|
  {
    if calls != [] {
      BrokeLater(b, deps, calls);
      EveryCallEnds(b, Invoke(b, deps, calls[0]).0, calls[1..]);
    }
  }

  /** What one call changes of the proposals, the confirmed refunds and the order looked up last. */
  lemma CallChanges(b: Binding, deps: Deps, call: Call, id: Id)
    requires Honest(b, call.tool) && !Stops(Invoke(b, deps, call).1)
    ensures var (next, end) := Invoke(b, deps, call);
            && (id in next.desk.confirmed <==> id in deps.desk.confirmed || Confirms(call, end, id))
            && (id in next.desk.pending <==>
                  Proposes(call, end, id) || (id in deps.desk.pending && !Confirms(call, end, id)))
            && (LooksLast(next.desk, id) <==>
                  if LookedAt(b, call, end).Some? then LookedAt(b, call, end) == Some(id) else LooksLast(deps.desk, id))
  {
  }

  predicate LooksLast(d: Desk, id: Id) {
    d.lastOrder.Some? && d.lastOrder.value.id == id
  }

  /** What the calls say about an order is what the service holds. */
  predicate Tells(b: Binding, calls: seq<Call>, ends: seq<ToolEnd>, n: nat, id: Id, d: Desk)
    requires n <= |calls| == |ends|
  {
    && (id in d.confirmed <==> ConfirmedIn(calls, ends, n, id))
    && (id in d.pending <==> StandingIn(calls, ends, n, id))
    && (LooksLast(d, id) <==> LastLookedIn(b, calls, ends, n, id))
  }

  /** The service's state about an order, read off the calls and how they ended. */
  lemma {:induction false} CallsDecide(b: Binding, calls: seq<Call>, ends: seq<ToolEnd>, n: nat, id: Id)
    requires ends == Ends(b, Fresh(), calls) && !Broke(ends) && AllHonest(b, calls) && n <= |calls|
    ensures |ends| == |calls|
    ensures Tells(b, calls, ends, n, id, InvokeAll(b, Fresh(), calls[..n]).desk)
    decreases n
  {
    EveryCallEnds(b, Fresh(), calls);
    if n == 0 {
      assert calls[..0] == [];
    } else {
      CallsDecide(b, calls, ends, n - 1, id);
      CallAt(b, Fresh(), calls, n - 1);
      TellsNext(b, calls, ends, n - 1, id, InvokeAll(b, Fresh(), calls[..n - 1]), InvokeAll(b, Fresh(), calls[..n]));
    }
  }

  lemma TellsNext(b: Binding, calls: seq<Call>, ends: seq<ToolEnd>, n: nat, id: Id, before: Deps, after: Deps)
    requires n < |calls| == |ends| && Honest(b, calls[n].tool) && !Stops(ends[n])
    requires (after, ends[n]) == Invoke(b, before, calls[n]) && Tells(b, calls, ends, n, id, before.desk)
    ensures Tells(b, calls, ends, n + 1, id, after.desk)
  {
    CallChanges(b, before, calls[n], id);
    HistoryGrows(b, calls, ends, n, id);
  }

  lemma HistoryGrows(b: Binding, calls: seq<Call>, ends: seq<ToolEnd>, n: nat, id: Id)
    requires n < |calls| == |ends|
    ensures ConfirmedIn(calls, ends, n + 1, id) <==> ConfirmedIn(calls, ends, n, id) || Confirms(calls[n], ends[n], id)
    ensures StandingIn(calls, ends, n + 1, id)
       <==> Proposes(calls[n], ends[n], id) || (StandingIn(calls, ends, n, id) && !Confirms(calls[n], ends[n], id))
    ensures LastLookedIn(b, calls, ends, n + 1, id)
       <==> var now := LookedAt(b, calls[n], ends[n]);
            if now.Some? then now == Some(id) else LastLookedIn(b, calls, ends, n, id)
  {
  }

  /** The calls confirmed the refund of this order and did not look at another order since they last
      looked at this one. */
  predicate Shown(c: Conditions, id: Id)
    requires !NoDraft(c)
  {
    EveryCallEnds(c.binding, Fresh(), c.calls);
    var ends := Ends(c.binding, Fresh(), c.calls);
    ConfirmedIn(c.calls, ends, |ends|, id) && LastLookedIn(c.binding, c.calls, ends, |ends|, id)
  }

  /** The calls left a proposal for this order standing. */
  predicate Standing(c: Conditions, id: Id)
    requires !NoDraft(c)
  {
    EveryCallEnds(c.binding, Fresh(), c.calls);
    var ends := Ends(c.binding, Fresh(), c.calls);
    StandingIn(c.calls, ends, |ends|, id)
  }

  /** The turn refunds the routed order by itself after the draft: the customer confirmed, a proposal is
      left, and no refund is there to be shown. */
  predicate RefundsAfterDraft(c: Conditions, routing: Routing)
    requires !NoDraft(c)
  {
    && routing.intent.RefundIntent? && c.binding.refundConfirmed && routing.orderId.Some?
    && Standing(c, routing.orderId.value) && !Shown(c, routing.orderId.value)
  }

  lemma AfterCalls(c: Conditions, routing: Routing)
    requires HonestTurn(c) && !NoDraft(c)
    ensures var d := InvokeAll(c.binding, Fresh(), c.calls).desk;
            && (MustAutoConfirm(c.binding, routing, d) <==> RefundsAfterDraft(c, routing))
            && (routing.orderId.Some? ==>
                  (ConfirmedRefundFor(d, routing.orderId).Some? <==> Shown(c, routing.orderId.value)))
  {
    if routing.orderId.Some? {
      CallsDecide(c.binding, c.calls, Ends(c.binding, Fresh(), c.calls), |c.calls|, routing.orderId.value);
      assert c.calls[..|c.calls|] == c.calls;
    }
  }

  // ---------------------------------------------------------------------------
  // How tool calls end, by the answers of the dependencies
  // ---------------------------------------------------------------------------

  function EndOfFault(fault: Fault): ToolEnd {
    match fault
    case Timeout => AskedRetry
    case Connection => AskedRetry
    case Fatal => Escaped(Faulted(Fatal))
  }

  /** The end of a tool call apart from limits, read off the answers; `mayRefund` says that the order has a
      proposal and that the customer confirmed. An order that vanished escapes from a confirmation. */
  function EndByReplies(b: Binding, mayRefund: bool, tool: Tool): ToolEnd {
    match tool
    case AskOrderStatus(_, Raised(fault)) => EndOfFault(fault)
    case AskOrderStatus(_, Replied(None)) => Refused(OrderNotFound)
    case AskOrderStatus(_, Replied(Some(o))) =>
      if o.customer == b.customer then Succeeded(GetOrderStatusTool) else Refused(Forbidden)
    case AskPolicy(Raised(fault), _) => Escaped(Faulted(fault))
    case AskPolicy(Replied(None), _) => Refused(PolicyNotFound)
    case AskPolicy(Replied(Some(_)), Ok(_)) => Succeeded(GetPolicyTool)
    case AskPolicy(Replied(Some(_)), Err(e)) =>
      if !b.retriever then Succeeded(GetPolicyTool)
      else if e.RetrievalFailed? || e.PolicyNotFound? then Refused(e)
      else Escaped(e)
    case AskProposal(_, _, Raised(fault)) => EndOfFault(fault)
    case AskProposal(_, _, Replied(None)) => Refused(OrderNotFound)
    case AskProposal(_, _, Replied(Some(o))) =>
      if o.customer != b.customer then Refused(Forbidden)
      else if o.status.Delivered? then Succeeded(ProposeRefundTool)
      else Refused(InvalidTransition)
    case AskConfirmation(_, replies) => if mayRefund then EndOfRefund(b, replies) else Refused(RefundNotConfirmed)
    case AskEscalation(Raised(fault)) => EndOfFault(fault)
    case AskEscalation(Replied(_)) => Succeeded(EscalateTool)
  }

  function EndOfRefund(b: Binding, replies: RefundReplies): ToolEnd {
    match replies.read
    case Raised(fault) => EndOfFault(fault)
    case Replied(None) => Escaped(OrderNotFound)
    case Replied(Some(o)) =>
      if o.customer != b.customer then Refused(Forbidden)
      else if !o.status.Delivered? then Refused(InvalidTransition)
      else
        match replies.update
        case Raised(fault) => EndOfFault(fault)
        case Replied(Some(_)) => Succeeded(ConfirmRefundTool)
        case Replied(None) =>
          match replies.reread
          case Raised(fault) => EndOfFault(fault)
          case Replied(None) => Escaped(OrderNotFound)
          case Replied(Some(o)) => if o.customer != b.customer then Refused(Forbidden) else Refused(InvalidTransition)
  }

  lemma EndsByReplies(b: Binding, d: Desk, tool: Tool)
    ensures var mayRefund := tool.AskConfirmation? && tool.orderId in d.pending && b.refundConfirmed;
            Unlimited(b, d, tool).1 == EndByReplies(b, mayRefund, tool)
  {
    match tool
    case AskConfirmation(orderId, replies) => RefundEnds(b, d, orderId, replies);
    case _ =>
  }

  lemma RefundEnds(b: Binding, d: Desk, orderId: Id, replies: RefundReplies)
    ensures Unlimited(b, d, AskConfirmation(orderId, replies)).1
         == if orderId in d.pending && b.refundConfirmed then EndOfRefund(b, replies) else Refused(RefundNotConfirmed)
  {
  }

  // ---------------------------------------------------------------------------
  // What the calls leave for the answer
  // ---------------------------------------------------------------------------

  /** The order a call read for the customer, or refunded. */
  function OrderRead(b: Binding, call: Call, end: ToolEnd): Option<Order> {
    match call.tool
    case AskOrderStatus(_, Replied(Some(o))) => if o.customer == b.customer then Some(o) else None
    case AskProposal(_, _, Replied(Some(o))) => if o.customer == b.customer then Some(o) else None
    case AskConfirmation(_, replies) =>
      if end.Succeeded? && replies.update.Replied? then replies.update.value else None
    case _ => None
  }

  /** What a call says about the refusal of a refund: nothing, that there is none any more, or a reason. */
  function Blame(b: Binding, call: Call, end: ToolEnd): Option<Option<Reason>> {
    match call.tool
    case AskProposal(_, _, Replied(None)) => Some(Some(OrderMissing))
    case AskProposal(_, _, Replied(Some(o))) =>
      if o.customer != b.customer then Some(Some(RefundBlockedForbidden))
      else if !o.status.Delivered? then Some(Some(RefundBlockedIneligible))
      else Some(None)
    case AskConfirmation(_, _) =>
      if end.Succeeded? then Some(None)
      else if end == Refused(RefundNotConfirmed) then Some(Some(RefundBlockedUnconfirmed))
      else None
    case _ => None
  }

  function PolicyFound(call: Call): Option<PolicyDocument> {
    match call.tool
    case AskPolicy(Replied(Some(policy)), _) => Some(policy)
    case _ => None
  }

  function HitsFound(b: Binding, call: Call): Option<seq<Hit>> {
    match call.tool
    case AskPolicy(Replied(Some(_)), Ok(hits)) => if b.retriever then Some(hits) else None
    case _ => None
  }

  function TicketMade(call: Call): Option<Id> {
    match call.tool
    case AskEscalation(Replied(ticket)) => Some(ticket)
    case _ => None
  }

  /** What the first `n` calls of a run leave behind. */
  datatype Traces = Traces(order: Option<Order>, blame: Option<Reason>, policy: Option<PolicyDocument>, hits: seq<Hit>,
                           ticket: Option<Id>, askedPolicy: bool, retried: bool)

  /** The last call that says something decides. */
  function TracesOf(b: Binding, calls: seq<Call>, ends: seq<ToolEnd>, n: nat): Traces
    requires n <= |calls| == |ends|
  {
    if n == 0 then Traces(None, None, None, [], None, false, false)
    else
      var t, call, end := TracesOf(b, calls, ends, n - 1), calls[n - 1], ends[n - 1];
      var order, blame := OrderRead(b, call, end), Blame(b, call, end);
      var policy, hits, ticket := PolicyFound(call), HitsFound(b, call), TicketMade(call);
      Traces(if order.Some? then order else t.order,
             if blame.Some? then blame.value else t.blame,
             if policy.Some? then policy else t.policy,
             if hits.Some? then hits.value else t.hits,
             if ticket.Some? then ticket else t.ticket,
             t.askedPolicy || (call.tool.AskPolicy? && end.Succeeded?),
             t.retried || end.AskedRetry?)
  }

  /** The standing proposal for an order: it has the order's amount as it was read, and the version of the
      policy read before it, or the accepted one. */
  function ProposalOf(b: Binding, calls: seq<Call>, ends: seq<ToolEnd>, n: nat, id: Id): Option<Proposal>
    requires n <= |calls| == |ends|
  {
    if n == 0 then None
    else
      var call, end := calls[n - 1], ends[n - 1];
      if Confirms(call, end, id) then None
      else if Proposes(call, end, id) && call.tool.read.Replied? && call.tool.read.value.Some? then
        var policy := TracesOf(b, calls, ends, n - 1).policy;
        Some(Proposal(call.tool.proposalId, id, b.customer, call.tool.read.value.value.amount,
                      if policy.Some? && policy.value.version != "" then policy.value.version else "2026-07-30"))
      else ProposalOf(b, calls, ends, n - 1, id)
  }

  /** The service and the dependency object hold what the calls left. */
  ghost predicate Leaves(deps: Deps, t: Traces) {
    && deps.desk.lastOrder == t.order && deps.desk.lastToolError == t.blame && deps.desk.lastPolicy == t.policy
    && deps.desk.policyVersion == (if t.policy.Some? then Some(t.policy.value.version) else None)
    && deps.desk.lastHits == t.hits
    && deps.desk.lastEscalation == (if t.ticket.Some? then Some(Escalation(t.ticket.value, EscalatedReason)) else None)
    && (GetPolicyTool in deps.desk.toolCalls <==> t.askedPolicy) && (deps.retries > 0 <==> t.retried)
  }

  ghost predicate HoldsProposals(b: Binding, d: Desk, calls: seq<Call>, ends: seq<ToolEnd>, n: nat)
    requires n <= |calls| == |ends|
  {
    forall id :: PendingProposal(d, Some(id)) == ProposalOf(b, calls, ends, n, id)
  }

  /** What a call that returns to the model leaves of the service. */
  ghost predicate Changes(b: Binding, d: Desk, call: Call, end: ToolEnd, e: Desk) {
    var order, blame, policy := OrderRead(b, call, end), Blame(b, call, end), PolicyFound(call);
    && e.lastOrder == (if order.Some? then order else d.lastOrder)
    && e.lastToolError == (if blame.Some? then blame.value else d.lastToolError)
    && e.lastPolicy == (if policy.Some? then policy else d.lastPolicy)
    && e.policyVersion == (if policy.Some? then Some(policy.value.version) else d.policyVersion)
    && e.lastHits == (if HitsFound(b, call).Some? then HitsFound(b, call).value else d.lastHits)
    && e.lastEscalation
       == (if TicketMade(call).Some? then Some(Escalation(TicketMade(call).value, EscalatedReason))
           else d.lastEscalation)
    && e.toolCalls == d.toolCalls + (if end.Succeeded? then [NameOf(call.tool)] else [])
  }

  lemma CallChangesDesk(b: Binding, deps: Deps, call: Call)
    requires !Stops(Invoke(b, deps, call).1)
    ensures Changes(b, deps.desk, call, Invoke(b, deps, call).1, Invoke(b, deps, call).0.desk)
  {
    match call.tool
    case AskConfirmation(_, _) => ConfirmationChanges(b, deps, call);
    case AskProposal(_, _, _) => ProposalChanges(b, deps, call);
    case _ =>
  }

  lemma ConfirmationChanges(b: Binding, deps: Deps, call: Call)
    requires call.tool.AskConfirmation? && !Stops(Invoke(b, deps, call).1)
    ensures Changes(b, deps.desk, call, Invoke(b, deps, call).1, Invoke(b, deps, call).0.desk)
  {
  }

  lemma ProposalChanges(b: Binding, deps: Deps, call: Call)
    requires call.tool.AskProposal? && !Stops(Invoke(b, deps, call).1)
    ensures Changes(b, deps.desk, call, Invoke(b, deps, call).1, Invoke(b, deps, call).0.desk)
  {
  }

  lemma CallLeaves(b: Binding, calls: seq<Call>, ends: seq<ToolEnd>, n: nat, before: Deps, after: Deps)
    requires n < |calls| == |ends| && !Stops(ends[n])
    requires (after, ends[n]) == Invoke(b, before, calls[n]) && Leaves(before, TracesOf(b, calls, ends, n))
    ensures Leaves(after, TracesOf(b, calls, ends, n + 1))
  {
    CallChangesDesk(b, before, calls[n]);
    InvokeRecords(b, before, calls[n]);
    SameNames(before.desk.toolCalls, ends[n], calls[n].tool);
    LeavesNext(b, calls, ends, n, before, after);
  }

  /** A tool call that succeeds is recorded under its own name. */
  lemma SameNames(names: seq<ToolName>, end: ToolEnd, tool: Tool)
    ensures GetPolicyTool in names + (if end.Succeeded? then [NameOf(tool)] else [])
       <==> GetPolicyTool in names || (end.Succeeded? && tool.AskPolicy?)
  {
  }

  lemma LeavesNext(b: Binding, calls: seq<Call>, ends: seq<ToolEnd>, n: nat, before: Deps, after: Deps)
    requires n < |calls| == |ends| && !Stops(ends[n]) && Leaves(before, TracesOf(b, calls, ends, n))
    requires Changes(b, before.desk, calls[n], ends[n], after.desk)
    requires after.retries == before.retries + if Transitory(ends[n]) then 1 else 0
    requires GetPolicyTool in after.desk.toolCalls
        <==> GetPolicyTool in before.desk.toolCalls || (ends[n].Succeeded? && calls[n].tool.AskPolicy?)
    ensures Leaves(after, TracesOf(b, calls, ends, n + 1))
  {
  }

  lemma CallHoldsProposals(b: Binding, calls: seq<Call>, ends: seq<ToolEnd>, n: nat, before: Deps, after: Deps)
    requires n < |calls| == |ends| && Honest(b, calls[n].tool) && !Stops(ends[n])
    requires (after, ends[n]) == Invoke(b, before, calls[n]) && Leaves(before, TracesOf(b, calls, ends, n))
    requires HoldsProposals(b, before.desk, calls, ends, n)
    ensures HoldsProposals(b, after.desk, calls, ends, n + 1)
  {
  }

  lemma {:induction false} RunLeaves(b: Binding, calls: seq<Call>, ends: seq<ToolEnd>, n: nat)
    requires ends == Ends(b, Fresh(), calls) && !Broke(ends) && AllHonest(b, calls) && n <= |calls|
    ensures |ends| == |calls|
    ensures Leaves(InvokeAll(b, Fresh(), calls[..n]), TracesOf(b, calls, ends, n))
    ensures HoldsProposals(b, InvokeAll(b, Fresh(), calls[..n]).desk, calls, ends, n)
    decreases n
  {
    EveryCallEnds(b, Fresh(), calls);
    if n == 0 {
      assert calls[..0] == [];
    } else {
      var before, after := InvokeAll(b, Fresh(), calls[..n - 1]), InvokeAll(b, Fresh(), calls[..n]);
      RunLeaves(b, calls, ends, n - 1);
      CallAt(b, Fresh(), calls, n - 1);
      CallLeaves(b, calls, ends, n - 1, before, after);
      CallHoldsProposals(b, calls, ends, n - 1, before, after);
    }
  }

  /** A refund draft is answered as confirmed exactly when the calls confirmed the refund of the routed
      order and looked at no other order since they last looked at it, or when the turn refunds a standing
      proposal by itself. */
  lemma MaskedExactly(c: Conditions, routing: Routing, used: Usage)
    requires HonestTurn(c) && c.routing == Some((routing, used)) && EscalateAtOnce(routing).None?
    requires !NoDraft(c) && c.draft.value.0.intent.RefundIntent? && Turn(c).end.Responded?
    ensures Turn(c).end.response.reason.RefundConfirmed?
       <==> (routing.orderId.Some? && Shown(c, routing.orderId.value)) || RefundsAfterDraft(c, routing)
  {
    TurnKeepsGuards(c);
    AfterCalls(c, routing);
    ConfirmedExactly(c.binding, Turn(c).deps, routing, c.draft.value.0, c.binding.retriever, c.acceptedAnswers);
  }

  /** If the customer confirmed and the routed order is still only proposed when the draft is there,
      the turn refunds it by itself: a refund draft is then answered as confirmed, unless the refund
      itself fails. */
  lemma AutoConfirms(c: Conditions, routing: Routing, used: Usage)
    requires HonestTurn(c) && c.routing == Some((routing, used)) && EscalateAtOnce(routing).None?
    requires !NoDraft(c) && RefundsAfterDraft(c, routing)
    ensures Turn(c).end.RaisedOut? && !Turn(c).end.error.InvalidCitation?
       <==> Refund(c.binding.customer, c.autoConfirm).Err?
    ensures Turn(c).end.Responded? ==> Done(c.binding, Turn(c).deps.desk, routing.orderId.value)
    ensures c.draft.value.0.intent.RefundIntent? ==>
              (if Refund(c.binding.customer, c.autoConfirm).Ok?
               then Turn(c).end.Responded? && Turn(c).end.response.reason.RefundConfirmed?
               else Turn(c).end.RaisedOut?)
  {
    TurnKeepsGuards(c);
    AfterCalls(c, routing);
    if Turn(c).end.Responded? {
      ConfirmedExactly(c.binding, Turn(c).deps, routing, c.draft.value.0, c.binding.retriever, c.acceptedAnswers);
    }
  }

  /** A policy draft that is otherwise grounded cites a hit without a version, and every id before it
      resolves. */
  predicate CitesWithoutVersion(d: Desk, draft: Draft, b: Binding, accepted: bool) {
    && draft.intent.PolicyIntent? && b.retriever && accepted
    && d.policyVersion == Some(ACCEPTED_POLICY_VERSION) && GetPolicyTool in d.toolCalls
    && exists k :: 0 <= k < |draft.citations| && VersionMissing(HitFor(d.lastHits, draft.citations[k]))
                   && forall j :: 0 <= j < k ==> Usable(HitFor(d.lastHits, draft.citations[j]))
  }

  lemma AssemblyFailsExactly(deps: Deps, routing: Routing, draft: Draft, b: Binding, accepted: bool)
    ensures Assembled(deps, routing, draft, b.retriever, accepted).Err?
       <==> CitesWithoutVersion(deps.desk, draft, b, accepted)
  {
    ResolvesExactly(draft.citations, deps.desk.lastHits);
  }

  /** The refund after the draft touches nothing that a policy answer rests on. */
  lemma RefundKeepsEvidence(b: Binding, d: Desk, orderId: Id, replies: RefundReplies, draft: Draft, accepted: bool)
    ensures CitesWithoutVersion(RefundConfirmedFor(b, d, orderId, replies).0, draft, b, accepted)
       <==> CitesWithoutVersion(d, draft, b, accepted)
  {
  }

  lemma AnswerRaises(c: Conditions, routing: Routing, used: Usage, desk: Desk)
    requires desk == InvokeAll(c.binding, Fresh(), c.calls).desk
    ensures Answer(c, routing, used).end.RaisedOut? <==>
      !NoDraft(c) &&
      ((MustAutoConfirm(c.binding, routing, desk) && Refund(c.binding.customer, c.autoConfirm).Err?)
       || CitesWithoutVersion(desk, c.draft.value.0, c.binding, c.acceptedAnswers))
  {
    if !NoDraft(c) {
      var b, deps, draft := c.binding, InvokeAll(c.binding, Fresh(), c.calls), c.draft.value.0;
      AssemblyFailsExactly(deps, routing, draft, b, c.acceptedAnswers);
      if MustAutoConfirm(b, routing, desk) {
        var after := RefundConfirmedFor(b, desk, routing.orderId.value, c.autoConfirm).0;
        RefundKeepsEvidence(b, desk, routing.orderId.value, c.autoConfirm, draft, c.acceptedAnswers);
        AssemblyFailsExactly(deps.(desk := after), routing, draft, b, c.acceptedAnswers);
      }
    }
  }

  /** An exception leaves a turn exactly when the ticket of an immediate hand-over fails, the refund after
      the draft fails, or a citation of the draft has no version. */
  lemma RaisesExactly(c: Conditions)
    requires HonestTurn(c)
    ensures Turn(c).end.RaisedOut? <==>
      c.routing.Some? &&
      (var routing := c.routing.value.0;
       if EscalateAtOnce(routing).Some? then c.ticket.Raised?
       else !NoDraft(c) &&
            ((RefundsAfterDraft(c, routing) && Refund(c.binding.customer, c.autoConfirm).Err?)
             || CitesWithoutVersion(InvokeAll(c.binding, Fresh(), c.calls).desk, c.draft.value.0, c.binding,
                                    c.acceptedAnswers)))
  {
    if c.routing.Some? && EscalateAtOnce(c.routing.value.0).None? {
      var (routing, spent) := c.routing.value;
      AnswerRaises(c, routing, Added(NoUsage(), spent), InvokeAll(c.binding, Fresh(), c.calls).desk);
      if !NoDraft(c) {
        AfterCalls(c, routing);
      }
    }
  }

  function Successes(ends: seq<ToolEnd>): seq<ToolName> {
    if ends == [] then []
    else (if ends[0].Succeeded? then [ends[0].name] else []) + Successes(ends[1..])
  }

  // ---------------------------------------------------------------------------
  // What a turn answers
  // ---------------------------------------------------------------------------

  /** What all calls of a turn left behind. */
  function Left(c: Conditions): Traces
    requires !NoDraft(c)
  {
    EveryCallEnds(c.binding, Fresh(), c.calls);
    TracesOf(c.binding, c.calls, Ends(c.binding, Fresh(), c.calls), |c.calls|)
  }

  function LeftProposal(c: Conditions, orderId: Option<Id>): Option<Proposal>
    requires !NoDraft(c)
  {
    EveryCallEnds(c.binding, Fresh(), c.calls);
    if orderId.None? then None
    else ProposalOf(c.binding, c.calls, Ends(c.binding, Fresh(), c.calls), |c.calls|, orderId.value)
  }

  lemma DeskLeft(c: Conditions, orderId: Option<Id>)
    requires HonestTurn(c) && !NoDraft(c)
    ensures var deps := InvokeAll(c.binding, Fresh(), c.calls);
            Leaves(deps, Left(c)) && PendingProposal(deps.desk, orderId) == LeftProposal(c, orderId)
  {
    RunLeaves(c.binding, c.calls, Ends(c.binding, Fresh(), c.calls), |c.calls|);
    assert c.calls[..|c.calls|] == c.calls;
  }

  /** An answered turn with a draft. */
  predicate Drafted(c: Conditions, routing: Routing, intent: Intent) {
    && c.routing.Some? && c.routing.value.0 == routing && EscalateAtOnce(routing).None? && !NoDraft(c)
    && c.draft.value.0.intent == intent && Turn(c).end.Responded?
  }

  /** A refund draft is answered with the refund, when it is shown or the turn carried it out; else with the
      standing proposal of the routed order; else as blocked, for the last reason that the calls gave, or for
      the missing confirmation when they gave none. */
  lemma RefundAnswers(c: Conditions, routing: Routing)
    requires HonestTurn(c) && Drafted(c, routing, RefundIntent)
    ensures var r, proposal := Turn(c).end.response, LeftProposal(c, routing.orderId);
            r.intent == RefundIntent && r.context.routing == routing &&
            if (routing.orderId.Some? && Shown(c, routing.orderId.value)) || RefundsAfterDraft(c, routing) then
              && r.outcome == Completed && r.reason == RefundConfirmed && r.message == RefundDone
              && r.context.order.Some? && Some(r.context.order.value.id) == routing.orderId
            else if proposal.Some? then
              && r.outcome == Completed && r.reason == RefundProposed && r.context.proposal == proposal
              && r.message == FromModel(c.draft.value.0.message)
            else
              && r.outcome == Blocked && r.context == Bare(routing) && r.message == FromModel(c.draft.value.0.message)
              && r.reason == if Left(c).blame.Some? then Left(c).blame.value else RefundBlockedUnconfirmed
  {
    TurnKeepsGuards(c);
    AfterCalls(c, routing);
    DeskLeft(c, routing.orderId);
    ConfirmedExactly(c.binding, Turn(c).deps, routing, c.draft.value.0, c.binding.retriever, c.acceptedAnswers);
  }

  /** An order draft is answered with the last order read for the customer, or the one refunded after the
      draft, and mentions a retry exactly when a call asked for one; without an order, as not found. */
  lemma OrderAnswers(c: Conditions, routing: Routing)
    requires HonestTurn(c) && Drafted(c, routing, OrderStatusIntent)
    ensures RefundsAfterDraft(c, routing) ==> c.autoConfirm.update.Replied? && c.autoConfirm.update.value.Some?
    ensures var r := Turn(c).end.response;
            var order := if RefundsAfterDraft(c, routing) then c.autoConfirm.update.value else Left(c).order;
            && r.intent == OrderStatusIntent && r.outcome == Completed
            && r.message == FromModel(c.draft.value.0.message)
            && r.context == Bare(routing).(order := order)
            && r.reason == if order.None? then OrderMissing else if Left(c).retried then OkWithRetry else OrderStatusOk
  {
    AfterCalls(c, routing);
    DeskLeft(c, routing.orderId);
  }

  /** A policy draft is answered as grounded exactly when its instructions are the accepted ones, a policy
      call succeeded, the last policy read has the accepted version, and with a retriever it cites something
      and every citation is a chunk of the last retrieval with a version. */
  lemma PolicyAnswers(c: Conditions, routing: Routing)
    requires HonestTurn(c) && Drafted(c, routing, PolicyIntent)
    ensures var r, left, ids := Turn(c).end.response, Left(c), c.draft.value.0.citations;
            var grounded :=
              && c.acceptedAnswers && left.askedPolicy && left.policy.Some? && left.policy.value.version == "2026-07-30"
              && (c.binding.retriever ==>
                    ids != [] && forall k :: 0 <= k < |ids| ==> Usable(HitFor(left.hits, ids[k])));
            && r.intent == PolicyIntent && r.message == FromModel(c.draft.value.0.message)
            && r.context.policy == left.policy
            && (if grounded then r.outcome == Completed && r.reason == PolicyAnswer
                else r.outcome == Blocked && r.reason == PolicyAnswerUngrounded)
            && (grounded && c.binding.retriever ==> Cites(r.context.citations, ids, left.hits))
  {
    AfterCalls(c, routing);
    DeskLeft(c, routing.orderId);
    var left, ids := Left(c), c.draft.value.0.citations;
    ResolvesExactly(ids, left.hits);
    if Resolved(ids, left.hits).Citations? {
      CitationsResolve(ids, left.hits);
    }
  }

  /** An escalation draft is answered with the last ticket that the calls made, and as blocked without one. */
  lemma EscalationAnswers(c: Conditions, routing: Routing)
    requires HonestTurn(c) && Drafted(c, routing, EscalateIntent)
    ensures var r, ticket := Turn(c).end.response, Left(c).ticket;
            && r.intent == EscalateIntent && r.message == FromModel(c.draft.value.0.message)
            && if ticket.None? then r.outcome == Blocked && r.reason == ToolError && r.context == Bare(routing)
               else && r.outcome == EscalatedOutcome && r.reason == EscalatedReason
                    && r.context == Bare(routing).(escalation := Some(Escalation(ticket.value, EscalatedReason)))
  {
    AfterCalls(c, routing);
    DeskLeft(c, routing.orderId);
  }

  /** A turn without a usable draft says that it failed. A turn that is routed to escalation, or about an
      order or a refund without an order, is handed over at once, with the ticket it made. */
  lemma OtherAnswers(c: Conditions)
    requires Turn(c).end.Responded?
    ensures c.routing.None? ==> Turn(c).end.response.outcome == Failed && Turn(c).end.response.reason == ModelError
    ensures c.routing.Some? ==>
              var r, routing := Turn(c).end.response, c.routing.value.0;
              var atOnce := routing.intent.EscalateIntent? || (routing.orderId.None? && !routing.intent.PolicyIntent?);
              && (r.outcome == Failed <==> !atOnce && NoDraft(c))
              && (r.outcome == Failed ==> r.reason == ModelError && r.message == CouldNotComplete)
              && (atOnce ==>
                    && r.intent == EscalateIntent && r.outcome == EscalatedOutcome && r.context.routing == routing
                    && r.context.escalation == Some(Escalation(c.ticket.value, r.reason))
                    && r.reason == (if routing.intent.EscalateIntent? then EscalatedReason
                                    else if routing.intent.RefundIntent? then RefundBlockedMissingReference
                                    else EscalatedMissingReference))
  {
  }

  predicate Transitory(end: ToolEnd) {
    end.AskedRetry? || end.Exhausted?
  }

  function Retried(ends: seq<ToolEnd>): nat {
    if ends == [] then 0 else (if Transitory(ends[0]) then 1 else 0) + Retried(ends[1..])
  }

  lemma RecordsCons(end: ToolEnd, later: seq<ToolEnd>)
    ensures Successes([end] + later) == (if end.Succeeded? then [end.name] else []) + Successes(later)
    ensures Retried([end] + later) == (if Transitory(end) then 1 else 0) + Retried(later)
  {
    assert ([end] + later)[1..] == later;
  }

  lemma InvokeRecords(b: Binding, deps: Deps, call: Call)
    ensures var (next, end) := Invoke(b, deps, call);
            && next.desk.toolCalls == deps.desk.toolCalls + (if end.Succeeded? then [end.name] else [])
            && next.retries == deps.retries + if Transitory(end) then 1 else 0
  {
  }

  /** The recorded tool calls are the successful ones in order, and the retry count is the number of
      transient failures. */
  lemma {:induction false} RecordsAreExact(b: Binding, deps: Deps, calls: seq<Call>)
    ensures InvokeAll(b, deps, calls).desk.toolCalls == deps.desk.toolCalls + Successes(Ends(b, deps, calls))
    ensures InvokeAll(b, deps, calls).retries == deps.retries + Retried(Ends(b, deps, calls))
    decreases |calls|
  {
    if calls != [] {
      var (next, end) := Invoke(b, deps, calls[0]);
      var later := if Stops(end) then [] else Ends(b, next, calls[1..]);
      InvokeRecords(b, deps, calls[0]);
      RecordsCons(end, later);
      assert Ends(b, deps, calls) == [end] + later;
      if !Stops(end) {
        RecordsAreExact(b, next, calls[1..]);
        var first := if end.Succeeded? then [end.name] else [];
        assert deps.desk.toolCalls + first + Successes(later) == deps.desk.toolCalls + (first + Successes(later));
      }
    }
  }

  // ---------------------------------------------------------------------------
  // What a run survives
  // ---------------------------------------------------------------------------

  /** How the calls would end if nothing ended the run. */
  function UnlimitedEnds(b: Binding, d: Desk, calls: seq<Call>): (ends: seq<ToolEnd>)
    ensures |ends| == |calls|
    decreases |calls|
  {
    if calls == [] then []
    else
      var (next, end) := Unlimited(b, d, calls[0].tool);
      [end] + UnlimitedEnds(b, next, calls[1..])
  }

  predicate OneCallPerReply(calls: seq<Call>) {
    forall i :: 0 <= i < |calls| ==> calls[i].opens
  }

  /** Whether the tool of call `k` failed for the time being in the reply before; `failing` stands for the
      reply before the first. */
  predicate FailedBefore(failing: set<ToolName>, calls: seq<Call>, ends: seq<ToolEnd>, k: nat)
    requires k < |calls| == |ends|
  {
    if k == 0 then NameOf(calls[0].tool) in failing
    else ends[k - 1].AskedRetry? && NameOf(calls[k - 1].tool) == NameOf(calls[k].tool)
  }

  /** No exception escapes call `k`, and a transient failure is within the retries of its tool. */
  predicate Tolerated(failing: set<ToolName>, calls: seq<Call>, ends: seq<ToolEnd>, k: nat)
    requires k < |calls| == |ends|
  {
    && !ends[k].Escaped?
    && (ends[k].AskedRetry? ==>
          RetryLimit(NameOf(calls[k].tool)) > if FailedBefore(failing, calls, ends, k) then 1 else 0)
  }

  predicate AllTolerated(failing: set<ToolName>, calls: seq<Call>, ends: seq<ToolEnd>)
    requires |calls| == |ends|
  {
    forall k :: 0 <= k < |calls| ==> Tolerated(failing, calls, ends, k)
  }

  lemma ToleratedStep(failing: set<ToolName>, next: set<ToolName>, calls: seq<Call>, ends: seq<ToolEnd>)
    requires 0 < |calls| == |ends| && next == if ends[0].AskedRetry? then {NameOf(calls[0].tool)} else {}
    ensures AllTolerated(failing, calls, ends)
       <==> Tolerated(failing, calls, ends, 0) && AllTolerated(next, calls[1..], ends[1..])
  {
    forall k | 0 <= k < |calls| - 1
      ensures Tolerated(failing, calls, ends, k + 1) <==> Tolerated(next, calls[1..], ends[1..], k)
    {
    }
    if Tolerated(failing, calls, ends, 0) && AllTolerated(next, calls[1..], ends[1..]) {
      forall k | 0 <= k < |calls| ensures Tolerated(failing, calls, ends, k) {
        assert k > 0 ==> Tolerated(next, calls[1..], ends[1..], k - 1);
      }
    }
  }

  lemma FirstTolerated(b: Binding, deps: Deps, call: Call, end: ToolEnd)
    requires call.opens && deps.pace.requests < ANSWER_REQUEST_LIMIT && end == Unlimited(b, deps.desk, call.tool).1
    ensures Stops(Invoke(b, deps, call).1) <==> !Tolerated(deps.pace.failing, [call], [end], 0)
    ensures var (next, actual) := Invoke(b, deps, call);
            && next.desk == Unlimited(b, deps.desk, call.tool).0
            && next.pace.requests == deps.pace.requests + 1
            && (!Stops(actual) ==> actual == end
                                   && next.pace.failing == if end.AskedRetry? then {NameOf(call.tool)} else {})
  {
  }

  /** A run with one call per model reply gets past all its calls exactly when there are requests enough,
      no exception escapes, and no tool fails for the time being more often in a row than its retries. */
  lemma {:induction false} SurvivesExactly(b: Binding, deps: Deps, calls: seq<Call>)
    requires OneCallPerReply(calls) && deps.pace.requests <= ANSWER_REQUEST_LIMIT
    ensures !Broke(Ends(b, deps, calls)) <==>
              && deps.pace.requests + |calls| <= ANSWER_REQUEST_LIMIT
              && AllTolerated(deps.pace.failing, calls, UnlimitedEnds(b, deps.desk, calls))
    ensures !Broke(Ends(b, deps, calls)) ==>
              && Ends(b, deps, calls) == UnlimitedEnds(b, deps.desk, calls)
              && InvokeAll(b, deps, calls).pace.requests == deps.pace.requests + |calls|
    decreases |calls|
  {
    if calls != [] {
      BrokeLater(b, deps, calls);
      if deps.pace.requests < ANSWER_REQUEST_LIMIT {
        var ends := UnlimitedEnds(b, deps.desk, calls);
        var (next, actual) := Invoke(b, deps, calls[0]);
        FirstTolerated(b, deps, calls[0], ends[0]);
        ToleratedStep(deps.pace.failing, if ends[0].AskedRetry? then {NameOf(calls[0].tool)} else {}, calls, ends);
        if !Stops(actual) {
          SurvivesExactly(b, next, calls[1..]);
          assert ends[1..] == UnlimitedEnds(b, next.desk, calls[1..]);
        }
      }
    }
  }

  function Proposals(names: seq<ToolName>): nat {
    if names == [] then 0 else Proposals(names[..|names| - 1]) + if names[|names| - 1].ProposeRefundTool? then 1 else 0
  }

  /** Every refund uses up a proposal of its own. */
  predicate OnePerProposal(d: Desk) {
    |d.executed| + |d.pending| <= Proposals(d.toolCalls)
  }

  lemma ProposalsSnoc(names: seq<ToolName>, name: ToolName)
    ensures Proposals(names + [name]) == Proposals(names) + if name.ProposeRefundTool? then 1 else 0
  {
    assert (names + [name])[..|names|] == names;
  }

  lemma ConfirmationUsesProposal(b: Binding, d: Desk, orderId: Id, replies: RefundReplies)
    ensures var e := RefundConfirmedFor(b, d, orderId, replies).0;
            |e.executed| + |e.pending| == |d.executed| + |d.pending| && e.toolCalls == d.toolCalls
  {
    if RefundConfirmedFor(b, d, orderId, replies).1.Ok? {
      var kept := d.pending - {orderId};
      assert kept.Keys == d.pending.Keys - {orderId};
      assert |kept.Keys| == |d.pending.Keys| - 1;
    }
  }

  lemma ProposalAddsOne(b: Binding, d: Desk, proposalId: Id, read: Reply<Option<Order>>)
    ensures var (e, r) := RefundProposedFor(b, d, proposalId, read);
            && |e.executed| + |e.pending| <= |d.executed| + |d.pending| + (if r.Ok? then 1 else 0)
            && e.toolCalls == d.toolCalls
  {
    if RefundProposedFor(b, d, proposalId, read).1.Ok? {
      var order := read.value.value;
      var grown := d.pending[order.id := NewProposal(b, d, order, proposalId)];
      assert grown.Keys == d.pending.Keys + {order.id};
      assert |grown.Keys| <= |d.pending.Keys| + 1;
    }
  }

  lemma InvokeUsesProposals(b: Binding, deps: Deps, call: Call)
    requires OnePerProposal(deps.desk)
    ensures OnePerProposal(Invoke(b, deps, call).0.desk)
  {
    ProposalsSnoc(deps.desk.toolCalls, NameOf(call.tool));
    match call.tool
    case AskConfirmation(orderId, replies) => ConfirmationUsesProposal(b, deps.desk, orderId, replies);
    case AskProposal(_, proposalId, read) => ProposalAddsOne(b, deps.desk, proposalId, read);
    case _ =>
  }

  lemma {:induction false} RefundsNeedProposals(b: Binding, deps: Deps, calls: seq<Call>)
    requires OnePerProposal(deps.desk)
    ensures OnePerProposal(InvokeAll(b, deps, calls).desk)
    decreases |calls|
  {
    if calls != [] {
      InvokeUsesProposals(b, deps, calls[0]);
      RefundsNeedProposals(b, Invoke(b, deps, calls[0]).0, calls[1..]);
    }
  }

  /** No turn carries out more refunds than it recorded successful proposals, the refund after the
      draft included. */
  lemma TurnRefundsNeedProposals(c: Conditions)
    ensures |Turn(c).deps.desk.executed| <= Proposals(Turn(c).deps.desk.toolCalls)
  {
    var b, deps := c.binding, InvokeAll(c.binding, Fresh(), c.calls);
    RefundsNeedProposals(b, Fresh(), c.calls);
    if c.routing.Some? && MustAutoConfirm(b, c.routing.value.0, deps.desk) {
      ConfirmationUsesProposal(b, deps.desk, c.routing.value.0.orderId.value, c.autoConfirm);
    }
  }

  /** The usage of the model runs that returned output. */
  function ReturnedRuns(c: Conditions): seq<Usage> {
    if c.routing.None? then []
    else if EscalateAtOnce(c.routing.value.0).Some? || NoDraft(c) then
      [c.routing.value.1]
    else [c.routing.value.1, c.draft.value.1]
  }

  function Totalled(runs: seq<Usage>): Usage {
    if runs == [] then NoUsage() else Added(Totalled(runs[..|runs| - 1]), runs[|runs| - 1])
  }

  lemma TotalledTwo(first: Usage, second: Usage)
    ensures Totalled([first]) == Added(NoUsage(), first)
    ensures Totalled([first, second]) == Added(Totalled([first]), second)
  {
    assert [first][..0] == [];
    assert [first, second][..1] == [first];
  }

  function Sum(numbers: seq<int>): int {
    if numbers == [] then 0 else Sum(numbers[..|numbers| - 1]) + numbers[|numbers| - 1]
  }

  function Inputs(runs: seq<Usage>): seq<int> {
    seq(|runs|, i requires 0 <= i < |runs| => runs[i].input)
  }

  function Outputs(runs: seq<Usage>): seq<int> {
    seq(|runs|, i requires 0 <= i < |runs| => runs[i].output)
  }

  function Totals(runs: seq<Usage>): seq<int> {
    seq(|runs|, i requires 0 <= i < |runs| => runs[i].total)
  }

  /** The costs that were reported. */
  function Costs(runs: seq<Usage>): real {
    if runs == [] then 0.0
    else
      Costs(runs[..|runs| - 1]) + if runs[|runs| - 1].cost.Some? then runs[|runs| - 1].cost.value else 0.0
  }

  /** Each count of a total is the sum of the counts, and there is a cost exactly when a run reported one. */
  lemma {:induction false} TotalledSums(runs: seq<Usage>)
    ensures var t := Totalled(runs);
            && t.input == Sum(Inputs(runs)) && t.output == Sum(Outputs(runs)) && t.total == Sum(Totals(runs))
            && (t.cost.Some? <==> exists i :: 0 <= i < |runs| && runs[i].cost.Some?)
            && (t.cost.Some? ==> t.cost.value == Costs(runs)) && (t.cost.None? ==> Costs(runs) == 0.0)
  {
    if runs != [] {
      var init := runs[..|runs| - 1];
      TotalledSums(init);
      assert Inputs(runs)[..|init|] == Inputs(init) && Outputs(runs)[..|init|] == Outputs(init);
      assert Totals(runs)[..|init|] == Totals(init);
      assert forall i :: 0 <= i < |init| ==> init[i] == runs[i];
    }
  }

  /** The tokens and the cost of a turn are those of the runs that returned output. */
  lemma UsageIsOfReturnedRuns(c: Conditions)
    ensures Turn(c).usage == Totalled(ReturnedRuns(c))
    ensures Turn(c).usage.total == Sum(Totals(ReturnedRuns(c)))
    ensures Turn(c).usage.cost.Some? ==> Turn(c).usage.cost.value == Costs(ReturnedRuns(c))
  {
    TotalledSums(ReturnedRuns(c));
    if c.routing.Some? {
      TotalledTwo(c.routing.value.1, if c.draft.Some? then c.draft.value.1 else NoUsage());
    }
  }

  lemma CitationsResolve(ids: seq<string>, hits: seq<Hit>)
    requires Resolved(ids, hits).Citations?
    ensures Cites(Resolved(ids, hits).list, ids, hits)
  {
    ResolvedLength(ids, hits);
    forall k | 0 <= k < |ids| ensures CitesOne(Resolved(ids, hits).list[k], ids[k], hits) {
      ResolvedAt(ids, hits, k);
    }
  }

  /** The citations are those asked for, in order, each the text of a retrieved chunk. */
  ghost predicate Cites(citations: seq<Citation>, ids: seq<string>, hits: seq<Hit>) {
    |citations| == |ids| && forall k :: 0 <= k < |ids| ==> CitesOne(citations[k], ids[k], hits)
  }

  /** A response is a hand-over, the failure text, or assembled from the final state and the draft. */
  predicate FromDraft(c: Conditions) {
    && c.routing.Some? && EscalateAtOnce(c.routing.value.0).None? && c.draft.Some?
    && Turn(c).end == EndOf(Assembled(Turn(c).deps, c.routing.value.0, c.draft.value.0, c.binding.retriever,
                                      c.acceptedAnswers))
  }

  lemma ResponsesComeFromDrafts(c: Conditions)
    requires Turn(c).end.Responded?
    ensures var r := Turn(c).end.response;
            FromDraft(c) || (r.outcome.Failed? && r.reason.ModelError?)
            || (r.outcome.EscalatedOutcome? && r.message.HandedOver?)
  {
  }

  lemma AssemblyBelongs(b: Binding, deps: Deps, routing: Routing, draft: Draft, accepted: bool)
    requires Guarded(b, deps.desk) && Assembled(deps, routing, draft, b.retriever, accepted).Ok?
    ensures Belongs(Assembled(deps, routing, draft, b.retriever, accepted).value.context, b.customer)
  {
  }

  predicate Belongs(context: Context, customer: Id) {
    && (context.order.Some? ==> context.order.value.customer == customer)
    && (context.proposal.Some? ==> context.proposal.value.customer == customer
                                   && Some(context.proposal.value.order) == context.routing.orderId)
  }

  /** Orders and proposals in a response are the customer's own, and a proposal is for the routed
      order. */
  lemma ContextBelongsToCustomer(c: Conditions)
    requires HonestTurn(c) && Turn(c).end.Responded?
    ensures Belongs(Turn(c).end.response.context, c.binding.customer)
  {
    TurnKeepsGuards(c);
    ResponsesComeFromDrafts(c);
    if FromDraft(c) {
      AssemblyBelongs(c.binding, Turn(c).deps, c.routing.value.0, c.draft.value.0, c.acceptedAnswers);
    }
  }

  lemma GroundedAssembly(b: Binding, deps: Deps, routing: Routing, draft: Draft, accepted: bool)
    requires Guarded(b, deps.desk)
    requires var r := Assembled(deps, routing, draft, b.retriever, accepted); r.Ok? && r.value.reason.PolicyAnswer?
    ensures draft.intent.PolicyIntent? && Grounding(deps.desk, draft, b.retriever, accepted).Citations?
    ensures Assembled(deps, routing, draft, b.retriever, accepted).value.context
         == Bare(routing).(policy := deps.desk.lastPolicy,
                           citations := Grounding(deps.desk, draft, b.retriever, accepted).list)
    ensures b.retriever ==>
              && draft.citations != []
              && Cites(Grounding(deps.desk, draft, b.retriever, accepted).list, draft.citations, deps.desk.lastHits)
  {
    if b.retriever {
      CitationsResolve(draft.citations, deps.desk.lastHits);
    }
  }

  /** A policy answer rests on the accepted version, read by a successful policy call of this turn; with
      a retriever it cites at least one chunk, and each citation is a chunk of the last retrieval. */
  lemma PolicyAnswersAreGrounded(c: Conditions)
    requires HonestTurn(c) && Turn(c).end.Responded? && Turn(c).end.response.reason.PolicyAnswer?
    ensures c.draft.Some? && c.acceptedAnswers && GetPolicyTool in Turn(c).deps.desk.toolCalls
    ensures var policy := Turn(c).end.response.context.policy;
            policy.Some? && policy.value.version == ACCEPTED_POLICY_VERSION
    ensures c.binding.retriever ==>
              var citations := Turn(c).end.response.context.citations;
              c.draft.value.0.citations != [] && Cites(citations, c.draft.value.0.citations, Turn(c).deps.desk.lastHits)
  {
    TurnKeepsGuards(c);
    ResponsesComeFromDrafts(c);
    if Turn(c).end.response.message.HandedOver? {
      HandOversAreNotPolicyAnswers(c);
    }
    GroundedAssembly(c.binding, Turn(c).deps, c.routing.value.0, c.draft.value.0, c.acceptedAnswers);
  }

  lemma HandOversAreNotPolicyAnswers(c: Conditions)
    requires Turn(c).end.Responded? && Turn(c).end.response.message.HandedOver?
    ensures !Turn(c).end.response.reason.PolicyAnswer?
  {
  }
}
