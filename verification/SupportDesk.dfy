/** The deterministic guards behind the support agent's tools: ownership, refund eligibility, and
    explicit confirmation. What the database answers is an input of each call. */
module SupportDesk {
  import opened Wrappers

  // ---------------------------------------------------------------------------
  // Values
  // ---------------------------------------------------------------------------

  type Id = nat

  datatype OrderStatus = OrderPending | Processing | Shipped | Delivered | Cancelled | Refunded

  datatype Order = Order(id: Id, customer: Id, status: OrderStatus, amount: int)

  datatype PolicyDocument = PolicyDocument(slug: string, version: string, content: string)

  /** A retrieved chunk; `chunk` is the printed chunk id. */
  datatype Hit = Hit(chunk: string, text: string, version: string)

  datatype Proposal = Proposal(id: Id, order: Id, customer: Id, amount: int, policyVersion: string)

  datatype Reason =
    | OrderStatusOk | OrderMissing | ForbiddenOrder | PolicyAnswer | PolicyAnswerUngrounded
    | RefundProposed | RefundConfirmed | RefundBlockedUnconfirmed | RefundBlockedIneligible
    | RefundBlockedForbidden | RefundBlockedMissingReference
    | EscalatedReason | EscalatedMissingReference | ModelError | ToolError | OkWithRetry

  datatype Escalation = Escalation(ticket: Id, reason: Reason)

  const ACCEPTED_POLICY_VERSION := "2026-07-30"

  /** `TimeoutError`, `ConnectionError`, and every other exception of a dependency. */
  datatype Fault = Timeout | Connection | Fatal

  datatype Reply<T> = Replied(value: T) | Raised(fault: Fault)

  datatype Error =
    | OrderNotFound | Forbidden | InvalidTransition | PolicyNotFound | RetrievalFailed
    | RefundNotConfirmed | Faulted(fault: Fault) | InvalidCitation

  // ---------------------------------------------------------------------------
  // The support service
  // ---------------------------------------------------------------------------

  /** `get_order`: ownership is checked on what the database returned. */
  function OwnedOrder(actor: Id, read: Reply<Option<Order>>): (r: Result<Order, Error>)
    ensures r.Ok? <==> read.Replied? && read.value.Some? && read.value.value.customer == actor
    ensures r.Ok? ==> r.value == read.value.value
  {
    match read
    case Raised(fault) => Err(Faulted(fault))
    case Replied(None) => Err(OrderNotFound)
    case Replied(Some(order)) => if order.customer != actor then Err(Forbidden) else Ok(order)
  }

  /** The three database answers of one refund: the order, the guarded update, and the second look at
      an order that the update did not match. */
  datatype RefundReplies = RefundReplies(read: Reply<Option<Order>>, update: Reply<Option<Order>>,
                                         reread: Reply<Option<Order>>)

  /** The update returns only the named order, owned by the customer and now refunded. */
  predicate Faithful(orderId: Id, actor: Id, replies: RefundReplies) {
    && ReadOf(orderId, replies.read) && ReadOf(orderId, replies.reread)
    && (replies.update.Replied? && replies.update.value.Some? ==>
          var o := replies.update.value.value; o.id == orderId && o.customer == actor && o.status == Refunded)
  }

  /** A lookup by key returns that key. */
  predicate ReadOf(orderId: Id, read: Reply<Option<Order>>) {
    read.Replied? && read.value.Some? ==> read.value.value.id == orderId
  }

  /** `request_refund`. */
  function Refund(actor: Id, replies: RefundReplies): (r: Result<Order, Error>)
    ensures r.Ok? <==> OwnedOrder(actor, replies.read).Ok? && OwnedOrder(actor, replies.read).value.status == Delivered
                       && replies.update.Replied? && replies.update.value.Some?
    ensures r.Ok? ==> r.value == replies.update.value.value
  {
    var order := OwnedOrder(actor, replies.read);
    if order.Err? then order
    else if order.value.status != Delivered then Err(InvalidTransition)
    else
      match replies.update
      case Raised(fault) => Err(Faulted(fault))
      case Replied(Some(saved)) => Ok(saved)
      case Replied(None) =>
        var current := OwnedOrder(actor, replies.reread);
        if current.Err? then current else Err(InvalidTransition)
  }

  // ---------------------------------------------------------------------------
  // The agent service
  // ---------------------------------------------------------------------------

  datatype ToolName = GetOrderStatusTool | GetPolicyTool | ProposeRefundTool | ConfirmRefundTool | EscalateTool

  /** What the service is bound to for one turn. */
  datatype Binding = Binding(customer: Id, refundConfirmed: bool, retriever: bool)

  /** The fields of the service. `executed` and `proposed` are history: the refunds the database
      carried out, and the orders a proposal was made for. */
  datatype Desk = Desk(pending: map<Id, Proposal>, confirmed: set<Id>, toolCalls: seq<ToolName>,
                       policyVersion: Option<string>, lastToolError: Option<Reason>, lastOrder: Option<Order>,
                       lastPolicy: Option<PolicyDocument>, lastEscalation: Option<Escalation>, lastHits: seq<Hit>,
                       executed: seq<Order>, proposed: set<Id>)

  function NewDesk(): Desk {
    Desk(map[], {}, [], None, None, None, None, None, [], [], {})
  }

  function PendingProposal(d: Desk, orderId: Option<Id>): Option<Proposal> {
    if orderId.Some? && orderId.value in d.pending then Some(d.pending[orderId.value]) else None
  }

  function ConfirmedRefundFor(d: Desk, orderId: Option<Id>): Option<Order> {
    if orderId.None? || orderId.value !in d.confirmed then None
    else if d.lastOrder.Some? && d.lastOrder.value.id == orderId.value then d.lastOrder
    else None
  }

  function OrderStatusRead(b: Binding, d: Desk, read: Reply<Option<Order>>): (Desk, Result<Order, Error>) {
    var order := OwnedOrder(b.customer, read);
    (if order.Ok? then d.(lastOrder := Some(order.value)) else d, order)
  }

  function PolicyRead(b: Binding, d: Desk, read: Reply<Option<PolicyDocument>>, search: Result<seq<Hit>, Error>)
    : (Desk, Result<PolicyDocument, Error>)
  {
    match read
    case Raised(fault) => (d, Err(Faulted(fault)))
    case Replied(None) => (d, Err(PolicyNotFound))
    case Replied(Some(policy)) =>
      var found := d.(policyVersion := Some(policy.version), lastPolicy := Some(policy));
      if !b.retriever then (found, Ok(policy))
      else if search.Err? then (found, Err(search.error))
      else (found.(lastHits := search.value), Ok(policy))
  }

  function RefundError(error: Error): Option<Reason> {
    match error
    case Forbidden => Some(RefundBlockedForbidden)
    case OrderNotFound => Some(OrderMissing)
    case InvalidTransition => Some(RefundBlockedIneligible)
    case _ => None
  }

  function NewProposal(b: Binding, d: Desk, order: Order, proposalId: Id): Proposal {
    Proposal(proposalId, order.id, b.customer, order.amount,
             if d.policyVersion.Some? && d.policyVersion.value != "" then d.policyVersion.value
             else ACCEPTED_POLICY_VERSION)
  }

  function RefundProposedFor(b: Binding, d: Desk, proposalId: Id, read: Reply<Option<Order>>)
    : (Desk, Result<Proposal, Error>)
  {
    var (looked, order) := OrderStatusRead(b, d, read);
    if order.Ok? && order.value.status == Delivered then
      var proposal := NewProposal(b, d, order.value, proposalId);
      (looked.(pending := d.pending[order.value.id := proposal], lastToolError := None,
               proposed := d.proposed + {order.value.id}), Ok(proposal))
    else
      var error := if order.Err? then order.error else InvalidTransition;
      (if RefundError(error).Some? then looked.(lastToolError := RefundError(error)) else looked, Err(error))
  }

  function RefundConfirmedFor(b: Binding, d: Desk, orderId: Id, replies: RefundReplies): (Desk, Result<Order, Error>) {
    if orderId !in d.pending || !b.refundConfirmed then
      (d.(lastToolError := Some(RefundBlockedUnconfirmed)), Err(RefundNotConfirmed))
    else
      var refunded := Refund(b.customer, replies);
      if refunded.Err? then (d, refunded)
      else
        (d.(pending := d.pending - {orderId}, confirmed := d.confirmed + {orderId}, lastOrder := Some(refunded.value),
            lastToolError := None, executed := d.executed + [refunded.value]), refunded)
  }

  function TicketOpened(d: Desk, created: Reply<Id>): (Desk, Result<Id, Error>) {
    match created
    case Raised(fault) => (d, Err(Faulted(fault)))
    case Replied(ticket) => (d.(lastEscalation := Some(Escalation(ticket, EscalatedReason))), Ok(ticket))
  }

  class SupportAgentService {
    const binding: Binding
    var pending: map<Id, Proposal>
    var confirmed: set<Id>
    var toolCalls: seq<ToolName>
    var policyVersion: Option<string>
    var lastToolError: Option<Reason>
    var lastOrder: Option<Order>
    var lastPolicy: Option<PolicyDocument>
    var lastEscalation: Option<Escalation>
    var lastHits: seq<Hit>
    ghost var executed: seq<Order>
    ghost var proposed: set<Id>

    ghost function State(): Desk
      reads this
    {
      Desk(pending, confirmed, toolCalls, policyVersion, lastToolError, lastOrder, lastPolicy, lastEscalation, lastHits,
           executed, proposed)
    }

    constructor (binding: Binding)
      ensures State() == NewDesk() && this.binding == binding
    {
      this.binding := binding;
      pending, confirmed, toolCalls, policyVersion, lastToolError := map[], {}, [], None, None;
      lastOrder, lastPolicy, lastEscalation, lastHits := None, None, None, [];
      executed, proposed := [], {};
    }

    function PendingFor(orderId: Option<Id>): (proposal: Option<Proposal>)
      reads this
      ensures proposal == PendingProposal(State(), orderId)
    {
      if orderId.Some? && orderId.value in pending then Some(pending[orderId.value]) else None
    }

    function RefundFor(orderId: Option<Id>): (order: Option<Order>)
      reads this
      ensures order == ConfirmedRefundFor(State(), orderId)
    {
      if orderId.None? || orderId.value !in confirmed then None
      else if lastOrder.Some? && lastOrder.value.id == orderId.value then lastOrder
      else None
    }

    method RecordToolCall(name: ToolName)
      modifies `toolCalls
      ensures toolCalls == old(toolCalls) + [name]
    {
      toolCalls := toolCalls + [name];
    }

    method GetOrderStatus(read: Reply<Option<Order>>) returns (r: Result<Order, Error>)
      modifies this
      ensures (State(), r) == OrderStatusRead(binding, old(State()), read)
    {
      r := OwnedOrder(binding.customer, read);
      if r.Ok? {
        lastOrder := Some(r.value);
      }
    }

    method GetPolicy(read: Reply<Option<PolicyDocument>>, search: Result<seq<Hit>, Error>)
      returns (r: Result<PolicyDocument, Error>)
      modifies this
      ensures (State(), r) == PolicyRead(binding, old(State()), read, search)
    {
      match read
      case Raised(fault) => return Err(Faulted(fault));
      case Replied(None) => return Err(PolicyNotFound);
      case Replied(Some(policy)) =>
        policyVersion := Some(policy.version);
        lastPolicy := Some(policy);
        if binding.retriever {
          if search.Err? {
            return Err(search.error);
          }
          lastHits := search.value;
        }
        return Ok(policy);
    }

    method ProposeRefund(proposalId: Id, read: Reply<Option<Order>>) returns (r: Result<Proposal, Error>)
      modifies this
      ensures (State(), r) == RefundProposedFor(binding, old(State()), proposalId, read)
    {
      var order := GetOrderStatus(read);
      if order.Ok? && order.value.status == Delivered {
        var version := if policyVersion.Some? && policyVersion.value != "" then policyVersion.value
                       else ACCEPTED_POLICY_VERSION;
        var proposal := Proposal(proposalId, order.value.id, binding.customer, order.value.amount, version);
        pending := pending[order.value.id := proposal];
        proposed := proposed + {order.value.id};
        lastToolError := None;
        return Ok(proposal);
      }
      var error := if order.Err? then order.error else InvalidTransition;
      match error {
        case Forbidden => lastToolError := Some(RefundBlockedForbidden);
        case OrderNotFound => lastToolError := Some(OrderMissing);
        case InvalidTransition => lastToolError := Some(RefundBlockedIneligible);
        case _ =>
      }
      return Err(error);
    }

    method ConfirmRefund(orderId: Id, replies: RefundReplies) returns (r: Result<Order, Error>)
      modifies this
      ensures (State(), r) == RefundConfirmedFor(binding, old(State()), orderId, replies)
    {
      if orderId !in pending || !binding.refundConfirmed {
        lastToolError := Some(RefundBlockedUnconfirmed);
        return Err(RefundNotConfirmed);
      }
      r := Refund(binding.customer, replies);
      if r.Err? {
        return;
      }
      executed := executed + [r.value];
      pending := pending - {orderId};
      confirmed := confirmed + {orderId};
      lastOrder := Some(r.value);
      lastToolError := None;
    }

    method Escalate(created: Reply<Id>) returns (r: Result<Id, Error>)
      modifies this
      ensures (State(), r) == TicketOpened(old(State()), created)
    {
      match created
      case Raised(fault) => return Err(Faulted(fault));
      case Replied(ticket) =>
        lastEscalation := Some(Escalation(ticket, EscalatedReason));
        return Ok(ticket);
    }
  }

  // ---------------------------------------------------------------------------
  // What every service state keeps
  // ---------------------------------------------------------------------------

  /** Refunds happen only for the customer, with consent, after a proposal; what the service hands out
      belongs to the customer. */
  ghost predicate Guarded(b: Binding, d: Desk) {
    && (forall id | id in d.confirmed :: Done(b, d, id))
    && (forall k | 0 <= k < |d.executed| :: d.executed[k].id in d.proposed && d.executed[k].id in d.confirmed)
    && (d.executed != [] ==> b.refundConfirmed)
    && (forall id | id in d.pending ::
          id in d.proposed && d.pending[id].order == id && d.pending[id].customer == b.customer)
    && (d.lastOrder.Some? ==> d.lastOrder.value.customer == b.customer)
    && (d.policyVersion.Some? ==> d.lastPolicy.Some? && d.lastPolicy.value.version == d.policyVersion.value)
    && (d.lastToolError.Some? ==> Blocking(d.lastToolError.value))
  }

  predicate Blocking(reason: Reason) {
    || reason.RefundBlockedForbidden? || reason.RefundBlockedIneligible? || reason.RefundBlockedUnconfirmed?
    || reason.OrderMissing?
  }

  /** The database carried out a refund of this order for this customer. */
  ghost predicate Done(b: Binding, d: Desk, id: Id) {
    exists k | 0 <= k < |d.executed| ::
      d.executed[k].id == id && d.executed[k].customer == b.customer && d.executed[k].status == Refunded
  }

  lemma ConfirmKeepsGuards(b: Binding, d: Desk, orderId: Id, replies: RefundReplies)
    requires Guarded(b, d) && Faithful(orderId, b.customer, replies)
    ensures Guarded(b, RefundConfirmedFor(b, d, orderId, replies).0)
  {
    var (after, r) := RefundConfirmedFor(b, d, orderId, replies);
    if r.Ok? {
      assert after.executed[|d.executed|] == r.value;
      forall id | id in after.confirmed ensures Done(b, after, id) {
        if id in d.confirmed {
          var k :| 0 <= k < |d.executed| && d.executed[k].id == id && d.executed[k].customer == b.customer
                   && d.executed[k].status == Refunded;
          assert after.executed[k] == d.executed[k];
        }
      }
    }
  }

  lemma SameHistoryKeepsDone(b: Binding, d: Desk, e: Desk)
    requires d.executed == e.executed && d.confirmed == e.confirmed
    ensures (forall id | id in d.confirmed :: Done(b, d, id)) <==> (forall id | id in e.confirmed :: Done(b, e, id))
  {
    assert forall id :: Done(b, d, id) == Done(b, e, id);
  }

  lemma ProposeKeepsGuards(b: Binding, d: Desk, proposalId: Id, read: Reply<Option<Order>>)
    requires Guarded(b, d)
    ensures Guarded(b, RefundProposedFor(b, d, proposalId, read).0)
  {
    SameHistoryKeepsDone(b, d, RefundProposedFor(b, d, proposalId, read).0);
  }

  lemma ReadsKeepGuards(b: Binding, d: Desk, order: Reply<Option<Order>>, policy: Reply<Option<PolicyDocument>>,
                        search: Result<seq<Hit>, Error>, ticket: Reply<Id>, name: ToolName)
    requires Guarded(b, d)
    ensures Guarded(b, OrderStatusRead(b, d, order).0)
    ensures Guarded(b, PolicyRead(b, d, policy, search).0)
    ensures Guarded(b, TicketOpened(d, ticket).0)
    ensures Guarded(b, d.(toolCalls := d.toolCalls + [name]))
  {
    SameHistoryKeepsDone(b, d, OrderStatusRead(b, d, order).0);
    SameHistoryKeepsDone(b, d, PolicyRead(b, d, policy, search).0);
    SameHistoryKeepsDone(b, d, TicketOpened(d, ticket).0);
    SameHistoryKeepsDone(b, d, d.(toolCalls := d.toolCalls + [name]));
  }
}
