/** The sandbox bridge's event uplink: numbered events, a buffer, batches posted over a network that
    can lose a request, lose a reply, or deliver a request late and again, and a service that closes its
    intake when the investigation ends. */
module BridgeUplink {
  import opened SequencedLog
  import opened EventStream
  import opened EventDelivery
  import opened Sequences

  const BATCH_SIZE := 50

  // ---------------------------------------------------------------------------
  // The intake of the service
  // ---------------------------------------------------------------------------

  /** The investigation row, its event table, and whether a summary was saved. */
  datatype Server = Server(table: seq<Event>, status: Status, summary: bool)

  predicate Closing(e: Event) {
    e.body.kind.InvestigationFinished? || e.body.kind.Failure?
  }

  predicate AllClosing(batch: seq<Event>) {
    forall i :: 0 <= i < |batch| ==> Closing(batch[i])
  }

  predicate Mentions(batch: seq<Event>, kind: EventKind) {
    exists i | 0 <= i < |batch| :: batch[i].body.kind == kind
  }

  /** A finished investigation takes closing events only, and only if it was completed. */
  predicate Accepts(status: Status, batch: seq<Event>) {
    !Terminal(status) || (status.Completed? && AllClosing(batch))
  }

  /** Where a batch takes an open investigation. */
  function StatusAfter(s: Server, batch: seq<Event>): Status {
    if Mentions(batch, Failure) then Failed
    else if !Mentions(batch, InvestigationFinished) then Running
    else if s.summary || Mentions(batch, SummarySubmitted) then Completed
    else Failed
  }

  /** `record_events`. A refused batch is answered with success all the same. */
  function Intake(s: Server, batch: seq<Event>): Server {
    if !Accepts(s.status, batch) then s
    else if Terminal(s.status) then s.(table := InsertAll(s.table, batch))
    else Server(InsertAll(s.table, batch), StatusAfter(s, batch), s.summary || Mentions(batch, SummarySubmitted))
  }

  function Moved(s: Server, status: Status): Server {
    if Allowed(s.status, status) then s.(status := status) else s
  }

  class InvestigationIntake {
    var table: seq<Event>
    var status: Status
    var summary: bool

    ghost function State(): Server
      reads this
    {
      Server(table, status, summary)
    }

    constructor ()
      ensures State() == Server([], Pending, false)
    {
      table, status, summary := [], Pending, false;
    }

    method InsertBatch(batch: seq<Event>)
      modifies `table
      ensures table == InsertAll(old(table), batch)
    {
      ghost var start := table;
      for i := 0 to |batch|
        invariant InsertAll(table, batch[i..]) == InsertAll(start, batch)
      {
        assert batch[i..][0] == batch[i] && batch[i..][1..] == batch[i + 1..];
        table := Insert(table, batch[i]);
      }
    }

    /** `transition_status` to a status another task asks for; a refused one raises and changes nothing. */
    method TransitionStatus(next: Status)
      modifies `status
      ensures State() == Moved(old(State()), next)
    {
      if Allowed(status, next) {
        status := next;
      }
    }

    method RecordEvents(batch: seq<Event>)
      modifies this
      ensures State() == Intake(old(State()), batch)
    {
      if Terminal(status) {
        var closing := OnlyClosing(batch);
        if status.Completed? && closing {
          InsertBatch(batch);
        }
        return;
      }
      status := Running;
      InsertBatch(batch);
      var submitted, finished, fatal := Scan(batch);
      summary := summary || submitted;
      Conclude(finished, fatal);
    }

    /** Where the end of the loop moves a running investigation. */
    method Conclude(finished: bool, fatal: bool)
      requires status.Running?
      modifies `status
      ensures status == if fatal then Failed else if !finished then Running else if summary then Completed else Failed
    {
      if fatal {
        TransitionStatus(Failed);
      } else if finished {
        TransitionStatus(if summary then Completed else Failed);
      }
    }
  }

  /** `all(event.type in ... for event in events)`. */
  method OnlyClosing(batch: seq<Event>) returns (closing: bool)
    ensures closing == AllClosing(batch)
  {
    for i := 0 to |batch|
      invariant forall j :: 0 <= j < i ==> Closing(batch[j])
    {
      if !Closing(batch[i]) {
        return false;
      }
    }
    return true;
  }

  /** The loop over an accepted batch that looks for a summary, an end and an error. */
  method Scan(batch: seq<Event>) returns (submitted: bool, finished: bool, fatal: bool)
    ensures submitted == Mentions(batch, SummarySubmitted)
    ensures finished == Mentions(batch, InvestigationFinished)
    ensures fatal == Mentions(batch, Failure)
  {
    submitted, finished, fatal := false, false, false;
    for i := 0 to |batch|
      invariant submitted <==> exists j | 0 <= j < i :: batch[j].body.kind == SummarySubmitted
      invariant finished <==> exists j | 0 <= j < i :: batch[j].body.kind == InvestigationFinished
      invariant fatal <==> exists j | 0 <= j < i :: batch[j].body.kind == Failure
    {
      match batch[i].body.kind
      case SummarySubmitted => submitted := true;
      case InvestigationFinished => finished := true;
      case Failure => fatal := true;
      case _ =>
    }
  }

  // ---------------------------------------------------------------------------
  // The bridge, the network and the service in the abstract
  // ---------------------------------------------------------------------------

  /** `recorded` is every event so far and `recorded[acked..]` the buffer; `posted` is the range of each
      batch ever sent, the last of them still waiting for its reply when `inFlight`, and handled by the
      service when `arrived`. `open` is how many rows the table had when the intake was last open, and
      `kept` the ranges of the batches accepted after that. */
  datatype Uplink = Uplink(recorded: seq<Event>, acked: nat, posted: seq<(nat, nat)>, inFlight: bool, arrived: bool,
                           server: Server, open: nat, kept: seq<(nat, nat)>)

  datatype UplinkStep =
    | Recording(body: EventBody)
    | Sending(count: nat)
    | Arriving(batch: nat)
    | Ending(answered: bool)
    | Moving(status: Status)

  function RecordOne(recorded: seq<Event>, body: EventBody): seq<Event> {
    recorded + [Entry(|recorded| + 1, body)]
  }

  ghost predicate CountsUp(recorded: seq<Event>) {
    forall i :: 0 <= i < |recorded| ==> recorded[i].number == i + 1
  }

  ghost predicate Consistent(u: Uplink) {
    && CountsUp(u.recorded) && u.acked <= |u.recorded|
    && (forall i :: 0 <= i < |u.posted| ==> u.posted[i].0 <= u.acked && u.posted[i].0 < u.posted[i].1 <= |u.recorded|)
    && (u.inFlight ==> u.posted != [] && u.posted[|u.posted| - 1].0 == u.acked)
  }

  ghost predicate Waiting(u: Uplink, k: nat) {
    u.inFlight && k + 1 == |u.posted|
  }

  function BatchOf(u: Uplink, k: nat): seq<Event>
    requires Consistent(u) && k < |u.posted|
  {
    u.recorded[u.posted[k].0..u.posted[k].1]
  }

  /** The service handles a batch, now or long after it was sent, for the first time or again. */
  ghost function Arrived(u: Uplink, k: nat): (next: Uplink)
    requires Consistent(u) && k < |u.posted|
    ensures Consistent(next)
  {
    var server := Intake(u.server, BatchOf(u, k));
    u.(server := server, arrived := u.arrived || Waiting(u, k),
       open := if Terminal(u.server.status) then u.open else |server.table|,
       kept := if Terminal(u.server.status) && Accepts(u.server.status, BatchOf(u, k)) then u.kept + [u.posted[k]]
               else u.kept)
  }

  ghost function Advance(u: Uplink, step: UplinkStep): (next: Uplink)
    requires Consistent(u)
    ensures Consistent(next)
  {
    match step
    case Recording(body) => u.(recorded := RecordOne(u.recorded, body))
    case Sending(n) =>
      if u.inFlight || n == 0 || u.acked + n > |u.recorded| then u
      else u.(posted := u.posted + [(u.acked, u.acked + n)], inFlight := true, arrived := false)
    case Arriving(k) => if k < |u.posted| then Arrived(u, k) else u
    case Ending(answered) =>
      u.(inFlight := false,
         acked := if u.inFlight && answered && u.arrived then u.posted[|u.posted| - 1].1 else u.acked)
    case Moving(status) => u.(server := Moved(u.server, status))
  }

  ghost function RunFrom(u: Uplink, steps: seq<UplinkStep>): (next: Uplink)
    requires Consistent(u)
    ensures Consistent(next)
    decreases |steps|
  {
    if steps == [] then u else RunFrom(Advance(u, steps[0]), steps[1..])
  }

  function Start(): Uplink {
    Uplink([], 0, [], false, false, Server([], Pending, false), 0, [])
  }

  lemma {:induction false} RunConcat(u: Uplink, a: seq<UplinkStep>, b: seq<UplinkStep>)
    requires Consistent(u)
    ensures RunFrom(u, a + b) == RunFrom(RunFrom(u, a), b)
    decreases |a|
  {
    if a == [] {
      assert a + b == b;
    } else {
      assert (a + b)[0] == a[0] && (a + b)[1..] == a[1..] + b;
      RunConcat(Advance(u, a[0]), a[1..], b);
    }
  }

  lemma NextStep(u: Uplink, steps: seq<UplinkStep>, i: nat, v: Uplink)
    requires Consistent(u) && i < |steps| && v == Advance(u, steps[i])
    ensures RunFrom(u, steps[i..]) == RunFrom(v, steps[i + 1..])
  {
    assert steps[i..][1..] == steps[i + 1..];
  }

  // ---------------------------------------------------------------------------
  // Inserting a posted batch into the table
  // ---------------------------------------------------------------------------

  function Max(a: nat, b: nat): nat { if a < b then b else a }

  lemma InsertNext(recorded: seq<Event>, n: nat, a: nat)
    requires CountsUp(recorded) && a <= n <= |recorded| && a < |recorded|
    ensures Insert(recorded[..n], recorded[a]) == if a < n then recorded[..n] else recorded[..n + 1]
  {
    var log := recorded[..n];
    assert Sorted(log);
    if a < n {
      assert log[a].number == recorded[a].number;
      InsertDuplicate(log, recorded[a]);
    } else {
      PositionUnique(log, recorded[a].number, n);
    }
  }

  lemma HeadOfSlice(s: seq<Event>, a: nat, b: nat)
    requires a < b <= |s|
    ensures s[a..b][0] == s[a] && s[a..b][1..] == s[a + 1..b]
  {
  }

  /** A batch that starts no later than the table ends extends the table in order. */
  lemma {:induction false} BatchExtends(recorded: seq<Event>, n: nat, a: nat, b: nat)
    requires CountsUp(recorded) && a <= n <= |recorded| && a <= b <= |recorded|
    ensures InsertAll(recorded[..n], recorded[a..b]) == recorded[..Max(n, b)]
    decreases b - a
  {
    if a < b {
      InsertNext(recorded, n, a);
      BatchExtends(recorded, if a < n then n else n + 1, a + 1, b);
      HeadOfSlice(recorded, a, b);
    } else {
      assert recorded[a..b] == [];
    }
  }

  /** Every row of the table is the recorded event of that number. */
  ghost predicate Rows(recorded: seq<Event>, table: seq<Event>) {
    Sorted(table) && forall e :: e in table ==> 1 <= e.number <= |recorded| && recorded[e.number - 1] == e
  }

  lemma NumberedRow(recorded: seq<Event>, table: seq<Event>, i: nat)
    requires CountsUp(recorded) && Rows(recorded, table) && i < |recorded|
    ensures Numbered(table, i + 1) <==> recorded[i] in table
  {
    if Numbered(table, i + 1) {
      var j :| 0 <= j < |table| && table[j].number == i + 1;
      assert table[j] in table;
    }
  }

  lemma InsertRow(recorded: seq<Event>, table: seq<Event>, a: nat)
    requires CountsUp(recorded) && Rows(recorded, table) && a < |recorded|
    ensures var t := Insert(table, recorded[a]);
            && Rows(recorded, t)
            && forall e :: e in t <==> e in table || e == recorded[a]
  {
    NumberedRow(recorded, table, a);
    InsertSorted(table, recorded[a]);
    InsertMembers(table, recorded[a]);
    if Numbered(table, a + 1) {
      InsertDuplicate(table, recorded[a]);
    }
  }

  lemma {:induction false} BatchStaysRows(recorded: seq<Event>, table: seq<Event>, a: nat, b: nat, batch: seq<Event>)
    requires CountsUp(recorded) && Rows(recorded, table) && a <= b <= |recorded| && batch == recorded[a..b]
    ensures Rows(recorded, InsertAll(table, batch))
    decreases b - a
  {
    if a < b {
      HeadOfSlice(recorded, a, b);
      InsertRow(recorded, table, a);
      BatchStaysRows(recorded, Insert(table, recorded[a]), a + 1, b, batch[1..]);
    }
  }

  lemma {:induction false} BatchRow(recorded: seq<Event>, table: seq<Event>, a: nat, b: nat, batch: seq<Event>,
                                    row: Event)
    requires CountsUp(recorded) && Rows(recorded, table) && a <= b <= |recorded| && batch == recorded[a..b]
    ensures row in InsertAll(table, batch) <==> row in table || row in batch
    decreases b - a
  {
    if a < b {
      HeadOfSlice(recorded, a, b);
      InsertRow(recorded, table, a);
      BatchRow(recorded, Insert(table, recorded[a]), a + 1, b, batch[1..], row);
      assert row in batch <==> row == batch[0] || row in batch[1..];
    }
  }

  lemma InSlice(recorded: seq<Event>, a: nat, b: nat, i: nat)
    requires CountsUp(recorded) && a <= b <= |recorded| && i < |recorded|
    ensures recorded[i] in recorded[a..b] <==> a <= i < b
  {
    var batch := recorded[a..b];
    assert forall j :: 0 <= j < |batch| ==> batch[j].number == a + j + 1;
    assert a <= i < b ==> batch[i - a] == recorded[i];
    assert recorded[i].number == i + 1;
  }

  /** Inserting a batch adds exactly its rows. */
  lemma BatchRows(recorded: seq<Event>, table: seq<Event>, a: nat, b: nat)
    requires CountsUp(recorded) && Rows(recorded, table) && a <= b <= |recorded|
    ensures Rows(recorded, InsertAll(table, recorded[a..b]))
    ensures forall i :: 0 <= i < |recorded| ==>
              (recorded[i] in InsertAll(table, recorded[a..b]) <==> recorded[i] in table || a <= i < b)
  {
    var batch := recorded[a..b];
    BatchStaysRows(recorded, table, a, b, batch);
    forall i | 0 <= i < |recorded|
      ensures recorded[i] in InsertAll(table, batch) <==> recorded[i] in table || a <= i < b
    {
      BatchRow(recorded, table, a, b, batch, recorded[i]);
      InSlice(recorded, a, b, i);
    }
  }

  function Records(batch: seq<Event>): seq<Write> {
    if batch == [] then [] else [Record(batch[0])] + Records(batch[1..])
  }

  /** Row `i` would be new to the table, and behind one of its rows. */
  ghost predicate RowBehind(recorded: seq<Event>, table: seq<Event>, i: nat)
    requires i < |recorded|
  {
    recorded[i] !in table && exists e :: e in table && e.number > i + 1
  }

  lemma AtEnd(recorded: seq<Event>, table: seq<Event>, a: nat)
    requires CountsUp(recorded) && Rows(recorded, table) && a < |recorded|
    ensures Numbered(table, a + 1) || Position(table, a + 1) == |table| <==> !RowBehind(recorded, table, a)
  {
    NumberedRow(recorded, table, a);
    var k := Position(table, a + 1);
    if k < |table| {
      assert table[k] in table && table[k].number > a + 1;
    } else {
      forall e | e in table ensures e.number <= a + 1 {
        var j :| 0 <= j < |table| && table[j] == e;
        SortedAt(table, j, |table| - 1);
      }
    }
  }

  lemma RecordsCons(w: Tables, batch: seq<Event>)
    requires batch != []
    ensures Appends(w, Records(batch)) <==>
              && (Numbered(w.log, batch[0].number) || Position(w.log, batch[0].number) == |w.log|)
              && Appends(Tables(Insert(w.log, batch[0]), w.status), Records(batch[1..]))
    ensures CommitAll(w, Records(batch)) == CommitAll(Tables(Insert(w.log, batch[0]), w.status), Records(batch[1..]))
  {
    assert Records(batch)[0] == Record(batch[0]) && Records(batch)[1..] == Records(batch[1..]);
  }

  /** A row stored before it leaves a later one where it was. */
  lemma SameBehind(recorded: seq<Event>, table: seq<Event>, t: seq<Event>, a: nat, i: nat)
    requires CountsUp(recorded) && a < i < |recorded| && forall e :: e in t <==> e in table || e == recorded[a]
    ensures RowBehind(recorded, t, i) <==> RowBehind(recorded, table, i)
  {
    assert recorded[i].number == i + 1 && recorded[a].number == a + 1;
  }

  /** A batch appends in order exactly when none of its rows falls behind. */
  lemma {:induction false} BatchAppendsExactly(recorded: seq<Event>, table: seq<Event>, a: nat, b: nat, status: Status)
    requires CountsUp(recorded) && Rows(recorded, table) && a <= b <= |recorded|
    ensures Appends(Tables(table, status), Records(recorded[a..b])) <==>
              forall i :: a <= i < b ==> !RowBehind(recorded, table, i)
    decreases b - a
  {
    if a < b {
      var t := Insert(table, recorded[a]);
      HeadOfSlice(recorded, a, b);
      InsertRow(recorded, table, a);
      AtEnd(recorded, table, a);
      RecordsCons(Tables(table, status), recorded[a..b]);
      BatchAppendsExactly(recorded, t, a + 1, b, status);
      forall i | a + 1 <= i < b ensures RowBehind(recorded, t, i) <==> RowBehind(recorded, table, i) {
        SameBehind(recorded, table, t, a, i);
      }
    } else {
      assert recorded[a..b] == [];
    }
  }

  lemma {:induction false} RecordsCommit(w: Tables, batch: seq<Event>)
    ensures CommitAll(w, Records(batch)) == Tables(InsertAll(w.log, batch), w.status)
    decreases batch
  {
    if batch != [] {
      RecordsCons(w, batch);
      RecordsCommit(Tables(Insert(w.log, batch[0]), w.status), batch[1..]);
    }
  }

  // ---------------------------------------------------------------------------
  // When acknowledged events are in the table
  // ---------------------------------------------------------------------------

  /** The table is the first so many recorded events, all acknowledged ones among them. */
  ghost predicate Faithful(u: Uplink) {
    |u.server.table| <= |u.recorded| && u.server.table == u.recorded[..|u.server.table|] && u.acked <= |u.server.table|
  }

  /** Moreover, a batch that waits for the reply of a service that handled it is in the table. */
  ghost predicate Healthy(u: Uplink) {
    Faithful(u) && (u.inFlight && u.arrived && u.posted != [] ==> u.posted[|u.posted| - 1].1 <= |u.server.table|)
  }

  /** The guard of the branch that loses events: a closed intake refuses the batch in flight, and the
      batch holds something new. */
  ghost predicate RefusesNews(u: Uplink, step: UplinkStep)
    requires Consistent(u)
  {
    && step.Arriving? && step.batch < |u.posted| && Waiting(u, step.batch)
    && !Accepts(u.server.status, BatchOf(u, step.batch)) && u.posted[step.batch].1 > |u.server.table|
  }

  lemma ArrivalKeepsPrefix(u: Uplink, k: nat)
    requires Consistent(u) && Faithful(u) && k < |u.posted|
    ensures Faithful(Arrived(u, k))
    ensures |Arrived(u, k).server.table|
         == if Accepts(u.server.status, BatchOf(u, k)) then Max(|u.server.table|, u.posted[k].1) else |u.server.table|
  {
    BatchExtends(u.recorded, |u.server.table|, u.posted[k].0, u.posted[k].1);
  }

  lemma ArrivalHealthyExactly(u: Uplink, k: nat)
    requires Consistent(u) && Healthy(u) && k < |u.posted|
    ensures Healthy(Arrived(u, k)) <==> !RefusesNews(u, Arriving(k))
  {
    ArrivalKeepsPrefix(u, k);
    var next, b := Arrived(u, k), u.posted[|u.posted| - 1].1;
    assert next.posted == u.posted && next.inFlight == u.inFlight;
    if Waiting(u, k) {
      assert Healthy(next) <==> b <= |next.server.table|;
    } else {
      assert next.arrived == u.arrived && |u.server.table| <= |next.server.table|;
    }
  }

  /** Every step keeps the agreement between bridge and table, the batch in flight included, except
      exactly the refusal of news. */
  lemma StepHealthyExactly(u: Uplink, step: UplinkStep)
    requires Consistent(u) && Healthy(u)
    ensures Healthy(Advance(u, step)) <==> !RefusesNews(u, step)
  {
    match step
    case Arriving(k) => if k < |u.posted| { ArrivalHealthyExactly(u, k); }
    case Recording(body) =>
      var n := |u.server.table|;
      assert RecordOne(u.recorded, body)[..n] == u.recorded[..n];
    case _ =>
  }

  ghost predicate HealthyAlong(u: Uplink, steps: seq<UplinkStep>)
    requires Consistent(u)
    decreases |steps|
  {
    Healthy(u) && (steps == [] || HealthyAlong(Advance(u, steps[0]), steps[1..]))
  }

  ghost predicate NoNewsRefused(u: Uplink, steps: seq<UplinkStep>)
    requires Consistent(u)
    decreases |steps|
  {
    steps == [] || (!RefusesNews(u, steps[0]) && NoNewsRefused(Advance(u, steps[0]), steps[1..]))
  }

  /** With the batch in flight counted, bridge and table agree at every moment of a run exactly when the
      closed intake never refuses news. */
  lemma {:induction false} HealthyExactly(u: Uplink, steps: seq<UplinkStep>)
    requires Consistent(u) && Healthy(u)
    ensures HealthyAlong(u, steps) <==> NoNewsRefused(u, steps)
    decreases |steps|
  {
    if steps != [] {
      StepHealthyExactly(u, steps[0]);
      if Healthy(Advance(u, steps[0])) {
        HealthyExactly(Advance(u, steps[0]), steps[1..]);
      }
    }
  }

  /** Whether the batch in flight has been refused with news in it; the next reply, heard or lost, ends
      that. */
  ghost predicate RefusedAfter(u: Uplink, refused: bool, step: UplinkStep)
    requires Consistent(u)
  {
    RefusesNews(u, step) || (refused && !step.Ending?)
  }

  /** The bridge hears success for a batch that was refused with news in it. */
  ghost predicate RefusalAnswered(u: Uplink, refused: bool, steps: seq<UplinkStep>)
    requires Consistent(u)
    decreases |steps|
  {
    steps != [] &&
    ((refused && steps[0] == Ending(true))
     || RefusalAnswered(Advance(u, steps[0]), RefusedAfter(u, refused, steps[0]), steps[1..]))
  }

  /** What a refusal leaves behind: a handled batch in flight that ends past the table, and that the
      service will not accept later either. */
  ghost predicate Watched(u: Uplink, refused: bool)
    requires Consistent(u)
  {
    && (refused <==> u.inFlight && u.arrived && u.posted[|u.posted| - 1].1 > |u.server.table|)
    && (refused ==> !Accepts(u.server.status, BatchOf(u, |u.posted| - 1)))
  }

  /** A batch that contains a refused one is refused, too. */
  lemma ContainingBatch(u: Uplink, j: nat, k: nat)
    requires Consistent(u) && j < |u.posted| && k < |u.posted| && !Accepts(u.server.status, BatchOf(u, k))
    requires u.posted[j].0 <= u.posted[k].0 && u.posted[k].1 <= u.posted[j].1
    ensures !Accepts(u.server.status, BatchOf(u, j))
  {
    var inner, outer, shift := BatchOf(u, k), BatchOf(u, j), u.posted[k].0 - u.posted[j].0;
    if AllClosing(outer) {
      forall i | 0 <= i < |inner| ensures Closing(inner[i]) {
        assert inner[i] == outer[i + shift];
      }
    }
  }

  lemma ArrivalWatched(u: Uplink, refused: bool, k: nat, v: Uplink)
    requires Consistent(u) && Watched(u, refused) && k < |u.posted| && Consistent(v)
    requires v == u.(server := v.server, arrived := u.arrived || Waiting(u, k), open := v.open, kept := v.kept)
    requires Terminal(u.server.status) ==> v.server.status == u.server.status
    requires |v.server.table|
          == if Accepts(u.server.status, BatchOf(u, k)) then Max(|u.server.table|, u.posted[k].1) else |u.server.table|
    ensures Watched(v, RefusedAfter(u, refused, Arriving(k)))
  {
    if u.inFlight {
      var last := |u.posted| - 1;
      assert BatchOf(v, last) == BatchOf(u, last);
      if refused && u.posted[last].1 <= u.posted[k].1 {
        ContainingBatch(u, k, last);
      }
    }
  }

  lemma StepWatched(u: Uplink, refused: bool, step: UplinkStep)
    requires Consistent(u) && Faithful(u) && Watched(u, refused)
    ensures Watched(Advance(u, step), RefusedAfter(u, refused, step))
    ensures Faithful(Advance(u, step)) <==> !(refused && step == Ending(true))
  {
    match step
    case Arriving(k) =>
      if k < |u.posted| {
        ArrivalKeepsPrefix(u, k);
        ArrivalWatched(u, refused, k, Arrived(u, k));
      }
    case Recording(body) =>
      var n := |u.server.table|;
      assert RecordOne(u.recorded, body)[..n] == u.recorded[..n];
      assert refused ==> BatchOf(Advance(u, step), |u.posted| - 1) == BatchOf(u, |u.posted| - 1);
    case _ =>
  }

  ghost predicate FaithfulAlong(u: Uplink, steps: seq<UplinkStep>)
    requires Consistent(u)
    decreases |steps|
  {
    Faithful(u) && (steps == [] || FaithfulAlong(Advance(u, steps[0]), steps[1..]))
  }

  /** Whatever the network does, the table is a prefix of the recorded events that holds every
      acknowledged one, at every moment of a run, exactly when the bridge never hears success for a batch
      that a closed intake refused with news in it. */
  lemma {:induction false} FaithfulExactly(u: Uplink, refused: bool, steps: seq<UplinkStep>)
    requires Consistent(u) && Faithful(u) && Watched(u, refused)
    ensures FaithfulAlong(u, steps) <==> !RefusalAnswered(u, refused, steps)
    decreases |steps|
  {
    if steps != [] {
      StepWatched(u, refused, steps[0]);
      if Faithful(Advance(u, steps[0])) {
        FaithfulExactly(Advance(u, steps[0]), RefusedAfter(u, refused, steps[0]), steps[1..]);
      }
    }
  }

  /** In particular from the start of the bridge. */
  lemma AcknowledgedStoredExactly(steps: seq<UplinkStep>)
    ensures FaithfulAlong(Start(), steps) <==> !RefusalAnswered(Start(), false, steps)
  {
    FaithfulExactly(Start(), false, steps);
  }

  /** A refusal of news turns into lost events with the reply that acknowledges it. */
  lemma RefusedNewsAreLost(u: Uplink, k: nat)
    requires Consistent(u) && Healthy(u) && RefusesNews(u, Arriving(k))
    ensures var after := Advance(Advance(u, Arriving(k)), Ending(true));
            after.acked > |after.server.table| && !Faithful(after) && after.server.table == u.server.table
  {
  }

  ghost predicate Covered(ranges: seq<(nat, nat)>, i: nat) {
    exists k :: 0 <= k < |ranges| && ranges[k].0 <= i < ranges[k].1
  }

  /** What every reachable state keeps, refusals included. */
  ghost predicate Good(u: Uplink) {
    && Consistent(u) && Rows(u.recorded, u.server.table) && u.open <= |u.recorded|
    && (forall k :: 0 <= k < |u.kept| ==> u.kept[k].1 <= |u.recorded|)
    && (forall i :: 0 <= i < |u.recorded| ==> (u.recorded[i] in u.server.table <==> i < u.open || Covered(u.kept, i)))
    && (!Terminal(u.server.status) ==> Healthy(u) && u.open == |u.server.table| && u.kept == [])
    && (u.kept != [] ==> u.server.status.Completed?)
  }

  lemma PrefixRows(recorded: seq<Event>, n: nat)
    requires CountsUp(recorded) && n <= |recorded|
    ensures Rows(recorded, recorded[..n])
    ensures forall i :: 0 <= i < |recorded| ==> (recorded[i] in recorded[..n] <==> i < n)
  {
    var table := recorded[..n];
    assert forall j :: 0 <= j < n ==> table[j] == recorded[j] && table[j].number == j + 1;
    forall i | 0 <= i < |recorded| ensures recorded[i] in table <==> i < n {
      assert i < n ==> table[i] == recorded[i];
      assert recorded[i].number == i + 1;
    }
  }

  lemma CoveredSnoc(ranges: seq<(nat, nat)>, r: (nat, nat), i: nat)
    ensures Covered(ranges + [r], i) <==> Covered(ranges, i) || r.0 <= i < r.1
  {
    if Covered(ranges, i) {
      var k :| 0 <= k < |ranges| && ranges[k].0 <= i < ranges[k].1;
      assert (ranges + [r])[k] == ranges[k];
    }
    if r.0 <= i < r.1 {
      assert (ranges + [r])[|ranges|] == r;
    }
  }

  lemma RecordingStaysGood(u: Uplink, body: EventBody)
    requires Good(u)
    ensures Good(Advance(u, Recording(body)))
  {
    var r := RecordOne(u.recorded, body);
    if |u.server.table| <= |u.recorded| {
      assert r[..|u.server.table|] == u.recorded[..|u.server.table|];
    }
    assert r[|u.recorded|].number == |u.recorded| + 1;
  }

  lemma OpenArrivalStaysGood(u: Uplink, k: nat)
    requires Good(u) && k < |u.posted| && !Terminal(u.server.status)
    ensures Good(Arrived(u, k))
  {
    ArrivalKeepsPrefix(u, k);
    ArrivalHealthyExactly(u, k);
    PrefixRows(u.recorded, |Arrived(u, k).server.table|);
  }

  lemma ClosedArrivalStaysGood(u: Uplink, k: nat)
    requires Good(u) && k < |u.posted| && Terminal(u.server.status)
    ensures Good(Arrived(u, k))
  {
    if Accepts(u.server.status, BatchOf(u, k)) {
      var table, kept := u.server.table, u.kept + [u.posted[k]];
      var after := InsertAll(table, BatchOf(u, k));
      BatchRows(u.recorded, table, u.posted[k].0, u.posted[k].1);
      forall i | 0 <= i < |u.recorded| ensures u.recorded[i] in after <==> i < u.open || Covered(kept, i) {
        CoveredSnoc(u.kept, u.posted[k], i);
      }
    }
  }

  lemma StepStaysGood(u: Uplink, step: UplinkStep)
    requires Good(u)
    ensures Good(Advance(u, step))
  {
    match step
    case Recording(body) => RecordingStaysGood(u, body);
    case Arriving(k) =>
      if k < |u.posted| {
        if Terminal(u.server.status) {
          ClosedArrivalStaysGood(u, k);
        } else {
          OpenArrivalStaysGood(u, k);
        }
      }
    case _ =>
  }

  lemma {:induction false} RunStaysGood(u: Uplink, steps: seq<UplinkStep>)
    requires Good(u)
    ensures Good(RunFrom(u, steps))
    decreases |steps|
  {
    if steps != [] {
      StepStaysGood(u, steps[0]);
      RunStaysGood(Advance(u, steps[0]), steps[1..]);
    }
  }

  /** In every reachable state an event is in the table exactly when it was stored before the intake
      closed, or belongs to a batch of closing events that a completed investigation accepted. While
      the intake is open, all acknowledged events are in the table. */
  lemma StoredExactly(steps: seq<UplinkStep>)
    ensures var u := RunFrom(Start(), steps);
            && Rows(u.recorded, u.server.table)
            && (forall i :: 0 <= i < |u.recorded| ==>
                  (u.recorded[i] in u.server.table <==> i < u.open || Covered(u.kept, i)))
            && (u.kept != [] ==> u.server.status.Completed?)
            && (!Terminal(u.server.status) ==> Healthy(u) && u.open == |u.server.table| && u.kept == [])
  {
    RunStaysGood(Start(), steps);
  }

  // ---------------------------------------------------------------------------
  // What a closed intake takes
  // ---------------------------------------------------------------------------

  /** After the end of an investigation a batch is stored exactly when the investigation was completed and
      the batch holds ends and errors only; the status stays in any case. */
  lemma ClosedIntakeExactly(s: Server, batch: seq<Event>)
    requires s.status.Completed? || s.status.Failed? || s.status.Cancelled?
    ensures var closing := forall i :: 0 <= i < |batch| ==>
                             batch[i].body.kind == InvestigationFinished || batch[i].body.kind == Failure;
            Intake(s, batch) == if s.status.Completed? && closing then s.(table := InsertAll(s.table, batch)) else s
  {
  }

  /** A plain flush whose request is handled and answered takes the first 50 buffered events off the buffer,
      or all when there are no more; a forced one takes all. */
  lemma FlushTakes(u: Uplink, forceAll: bool)
    requires Consistent(u) && !u.inFlight && u.acked < |u.recorded|
    ensures var buffered := |u.recorded| - u.acked;
            var after := RunFrom(u, FlushSteps(u, forceAll, [Attempt([Arriving(|u.posted|)], true)]));
            after.acked == u.acked + if forceAll || buffered <= 50 then buffered else 50
  {
    var n, attempt := BatchSize(|u.recorded| - u.acked, forceAll), Attempt([Arriving(|u.posted|)], true);
    PostTakes(u, n, attempt);
    OneAttempt(u, forceAll, attempt, PostSteps(n, attempt));
  }

  lemma OneAttempt(u: Uplink, forceAll: bool, attempt: Attempt, steps: seq<UplinkStep>)
    requires Consistent(u) && u.acked < |u.recorded|
    requires steps == PostSteps(BatchSize(|u.recorded| - u.acked, forceAll), attempt)
    ensures FlushSteps(u, forceAll, [attempt]) == steps
  {
    assert [attempt][1..] == [] && steps + [] == steps;
  }

  lemma PostTakes(u: Uplink, n: nat, attempt: Attempt)
    requires Consistent(u) && !u.inFlight && 1 <= n <= |u.recorded| - u.acked
    requires attempt == Attempt([Arriving(|u.posted|)], true)
    ensures RunFrom(u, PostSteps(n, attempt)).acked == u.acked + n
  {
    var sent := Advance(u, Sending(n));
    var waited := Advance(sent, Arriving(|u.posted|));
    NextStep(sent, attempt.during, 0, waited);
    assert attempt.during[0..] == attempt.during && attempt.during[1..] == [];
    PostIsRun(u, n, attempt, sent, waited, Advance(waited, Ending(true)));
  }

  // ---------------------------------------------------------------------------
  // What the status says about the events
  // ---------------------------------------------------------------------------

  /** An event of this kind is among the first `n`. */
  ghost predicate Among(recorded: seq<Event>, n: nat, kind: EventKind)
    requires n <= |recorded|
  {
    exists i :: 0 <= i < n && recorded[i].body.kind == kind
  }

  /** Without an end or an error the investigation is open; an error fails it; an end completes it with a
      summary, and fails it without one. */
  predicate Story(s: Server, failed: bool, ended: bool, summed: bool) {
    && (!Terminal(s.status) <==> !failed && !ended)
    && (s.status.Completed? <==> !failed && ended && summed)
    && (s.status.Failed? <==> failed || (ended && !summed))
    && (!Terminal(s.status) ==> (s.summary <==> summed))
  }

  /** The status is the story of the events stored while the intake was open. */
  ghost predicate Tells(u: Uplink) {
    u.open <= |u.recorded| &&
    Story(u.server, Among(u.recorded, u.open, Failure), Among(u.recorded, u.open, InvestigationFinished),
          Among(u.recorded, u.open, SummarySubmitted))
  }

  lemma AmongGrows(recorded: seq<Event>, n: nat, a: nat, b: nat, kind: EventKind)
    requires a <= n <= |recorded| && a <= b <= |recorded|
    ensures Among(recorded, Max(n, b), kind) <==> Among(recorded, n, kind) || Mentions(recorded[a..b], kind)
  {
    var batch := recorded[a..b];
    if Mentions(batch, kind) {
      var i :| 0 <= i < |batch| && batch[i].body.kind == kind;
      assert recorded[a + i].body.kind == kind;
    }
    if Among(recorded, Max(n, b), kind) && !Among(recorded, n, kind) {
      var i :| 0 <= i < Max(n, b) && recorded[i].body.kind == kind;
      assert batch[i - a] == recorded[i];
    }
  }

  lemma IntakeStory(s: Server, batch: seq<Event>, failed: bool, ended: bool, summed: bool)
    requires Story(s, failed, ended, summed) && !Terminal(s.status)
    ensures Story(Intake(s, batch), failed || Mentions(batch, Failure), ended || Mentions(batch, InvestigationFinished),
                  summed || Mentions(batch, SummarySubmitted))
  {
  }

  lemma ArrivalTells(u: Uplink, k: nat)
    requires Good(u) && Tells(u) && k < |u.posted|
    ensures Tells(Arrived(u, k))
  {
    if !Terminal(u.server.status) {
      var a, b, n := u.posted[k].0, u.posted[k].1, u.open;
      ArrivalKeepsPrefix(u, k);
      IntakeStory(u.server, BatchOf(u, k), Among(u.recorded, n, Failure), Among(u.recorded, n, InvestigationFinished),
                  Among(u.recorded, n, SummarySubmitted));
      AmongGrows(u.recorded, n, a, b, Failure);
      AmongGrows(u.recorded, n, a, b, InvestigationFinished);
      AmongGrows(u.recorded, n, a, b, SummarySubmitted);
    }
  }

  lemma RecordingTells(u: Uplink, body: EventBody)
    requires Good(u) && Tells(u)
    ensures Tells(Advance(u, Recording(body)))
  {
    forall i | 0 <= i < u.open ensures RecordOne(u.recorded, body)[i] == u.recorded[i] {
    }
    forall kind: EventKind
      ensures Among(RecordOne(u.recorded, body), u.open, kind) <==> Among(u.recorded, u.open, kind)
    {
    }
  }

  /** Sending and the end of a wait touch neither the events nor the server. */
  lemma WaitingTells(u: Uplink, step: UplinkStep, v: Uplink)
    requires Consistent(u) && Tells(u) && (step.Sending? || step.Ending?) && v == Advance(u, step)
    ensures Tells(v)
  {
    assert v.recorded == u.recorded && v.open == u.open && v.server == u.server;
  }

  lemma StepTells(u: Uplink, step: UplinkStep, v: Uplink)
    requires Good(u) && Tells(u) && !step.Moving? && v == Advance(u, step)
    ensures Tells(v)
  {
    if step.Arriving? {
      if step.batch < |u.posted| {
        ArrivalTells(u, step.batch);
      }
    } else if step.Recording? {
      RecordingTells(u, step.body);
    } else {
      WaitingTells(u, step, v);
    }
  }

  predicate NoneMoves(steps: seq<UplinkStep>) {
    steps == [] || (!steps[0].Moving? && NoneMoves(steps[1..]))
  }

  lemma {:induction false} RunTells(u: Uplink, steps: seq<UplinkStep>, after: Uplink)
    requires Good(u) && Tells(u) && NoneMoves(steps) && after == RunFrom(u, steps)
    ensures Tells(after)
    decreases |steps|
  {
    if steps != [] {
      var next := Advance(u, steps[0]);
      StepStaysGood(u, steps[0]);
      StepTells(u, steps[0], next);
      RunTells(next, steps[1..], after);
    }
  }

  /** In every reachable state, unless another task moves the status, the status is what the stored events
      tell. */
  lemma StatusTellsStory(steps: seq<UplinkStep>)
    requires NoneMoves(steps)
    ensures Tells(RunFrom(Start(), steps))
  {
    RunTells(Start(), steps, RunFrom(Start(), steps));
  }

  // ---------------------------------------------------------------------------
  // When batches append in order
  // ---------------------------------------------------------------------------

  /** What the handling of a batch commits. */
  function IntakeWrites(s: Server, batch: seq<Event>): seq<Write> {
    if !Accepts(s.status, batch) then []
    else if Terminal(s.status) then Records(batch)
    else
      Openings(s.status) + Records(batch)
      + (if StatusAfter(s, batch).Running? then [] else [MoveTo(StatusAfter(s, batch))])
  }

  function Openings(status: Status): seq<Write> {
    match status
    case Pending => [MoveTo(Provisioning), MoveTo(Running)]
    case Provisioning => [MoveTo(Running)]
    case _ => []
  }

  ghost predicate Behind(u: Uplink, k: nat)
    requires Consistent(u) && k < |u.posted|
  {
    Accepts(u.server.status, BatchOf(u, k))
    && exists i :: u.posted[k].0 <= i < u.posted[k].1 && RowBehind(u.recorded, u.server.table, i)
  }

  lemma {:induction false} CommitConcat(w: Tables, a: seq<Write>, b: seq<Write>)
    ensures CommitAll(w, a + b) == CommitAll(CommitAll(w, a), b)
    ensures Appends(w, a + b) <==> Appends(w, a) && Appends(CommitAll(w, a), b)
    decreases a
  {
    if a == [] {
      assert a + b == b;
    } else {
      assert (a + b)[0] == a[0] && (a + b)[1..] == a[1..] + b;
      CommitConcat(Commit(w, a[0]), a[1..], b);
    }
  }

  lemma OpeningsCommit(w: Tables)
    requires !Terminal(w.status)
    ensures CommitAll(w, Openings(w.status)) == w.(status := Running) && Appends(w, Openings(w.status))
  {
    var ws := Openings(w.status);
    if w.status.Pending? {
      assert ws[1..] == [MoveTo(Running)] && ws[1..][1..] == [];
      assert CommitAll(w, ws) == CommitAll(w.(status := Provisioning), [MoveTo(Running)]);
    } else if w.status.Provisioning? {
      assert ws[1..] == [];
    }
  }

  lemma OneMove(w: Tables, status: Status)
    requires w.status.Running? && Terminal(status)
    ensures CommitAll(w, [MoveTo(status)]) == w.(status := status) && Appends(w, [MoveTo(status)])
  {
    assert [MoveTo(status)][1..] == [];
  }

  /** The writes of an intake have its effect, and append exactly when its rows do. */
  lemma IntakeCommits(s: Server, batch: seq<Event>)
    ensures CommitAll(Tables(s.table, s.status), IntakeWrites(s, batch))
         == Tables(Intake(s, batch).table, Intake(s, batch).status)
    ensures Appends(Tables(s.table, s.status), IntakeWrites(s, batch)) <==>
              (Accepts(s.status, batch) ==>
                 Appends(Tables(s.table, if Terminal(s.status) then s.status else Running), Records(batch)))
  {
    var w := Tables(s.table, s.status);
    if Accepts(s.status, batch) {
      if Terminal(s.status) {
        RecordsCommit(w, batch);
      } else {
        var running := w.(status := Running);
        var last := if StatusAfter(s, batch).Running? then [] else [MoveTo(StatusAfter(s, batch))];
        OpeningsCommit(w);
        RecordsCommit(running, batch);
        CommitConcat(w, Openings(s.status) + Records(batch), last);
        CommitConcat(w, Openings(s.status), Records(batch));
        if last != [] {
          OneMove(CommitAll(running, Records(batch)), StatusAfter(s, batch));
        }
      }
    }
  }

  /** An arriving batch appends in order exactly when it is not accepted behind the table. */
  lemma ArrivalAppendsExactly(u: Uplink, k: nat)
    requires Good(u) && k < |u.posted|
    ensures Appends(Tables(u.server.table, u.server.status), IntakeWrites(u.server, BatchOf(u, k))) <==> !Behind(u, k)
  {
    var status := if Terminal(u.server.status) then u.server.status else Running;
    IntakeCommits(u.server, BatchOf(u, k));
    BatchAppendsExactly(u.recorded, u.server.table, u.posted[k].0, u.posted[k].1, status);
  }

  /** While table and bridge agree, and in particular while the intake is open, no batch ever posted
      arrives behind the table; nor after a failure or a cancellation. */
  lemma HealthyAppends(u: Uplink, k: nat)
    requires Good(u) && k < |u.posted|
    ensures Faithful(u) || u.server.status.Failed? || u.server.status.Cancelled? ==> !Behind(u, k)
  {
    if Faithful(u) {
      PrefixRows(u.recorded, |u.server.table|);
    }
  }

  // ---------------------------------------------------------------------------
  // A run that loses acknowledged events and breaks the order
  // ---------------------------------------------------------------------------

  function Plain(kind: EventKind): EventBody {
    EventBody(kind, "")
  }

  ghost function CompletedRun(): (u: Uplink)
    ensures Consistent(u)
  {
    var both := Advance(Advance(Start(), Recording(Plain(SummarySubmitted))), Recording(Plain(InvestigationFinished)));
    Advance(Advance(Advance(both, Sending(2)), Arriving(0)), Ending(true))
  }

  /** The investigation is completed, and all that was recorded is stored and acknowledged. */
  ghost predicate Settled(u: Uplink) {
    && Consistent(u) && u.server.status.Completed? && !u.inFlight
    && u.server.table == u.recorded && u.acked == |u.recorded|
  }

  /** The run of a summary and an end, posted together, settles. */
  lemma CompletedRunSettles()
    ensures Settled(CompletedRun())
  {
    var both := Advance(Advance(Start(), Recording(Plain(SummarySubmitted))), Recording(Plain(InvestigationFinished)));
    CompletingArrival(Advance(both, Sending(2)));
  }

  lemma CompletingArrival(u: Uplink)
    requires Consistent(u) && |u.recorded| == 2 && u.posted == [(0, 2)] && u.server == Server([], Pending, false)
    requires u.recorded[0].body.kind == SummarySubmitted && u.recorded[1].body.kind == InvestigationFinished
    ensures Arrived(u, 0).server.status.Completed? && Arrived(u, 0).server.table == u.recorded
  {
    var batch := BatchOf(u, 0);
    assert u.recorded[..0] == [] && u.recorded[..2] == u.recorded && batch == u.recorded;
    BatchExtends(u.recorded, 0, 0, 2);
  }

  /** An error is posted and delayed. */
  ghost function Delayed(u: Uplink): (v: Uplink)
    requires Consistent(u)
    ensures Consistent(v)
  {
    Advance(Advance(Advance(u, Recording(Plain(Failure))), Sending(1)), Ending(false))
  }

  /** Posted again together with a heartbeat it is refused, with success. */
  ghost function Refused(u: Uplink): (v: Uplink)
    requires Consistent(u)
    ensures Consistent(v)
  {
    var sent := Advance(Advance(u, Recording(Plain(Heartbeat))), Sending(2));
    Advance(Advance(sent, Arriving(|u.posted|)), Ending(true))
  }

  /** A later error is accepted. */
  ghost function Accepted(u: Uplink): (v: Uplink)
    requires Consistent(u)
    ensures Consistent(v)
  {
    var sent := Advance(Advance(u, Recording(Plain(Failure))), Sending(1));
    Advance(sent, Arriving(|u.posted|))
  }

  lemma RefusedLoses(u: Uplink)
    requires Settled(u)
    ensures var v, n := Refused(Delayed(u)), |u.recorded|;
            && |v.recorded| == n + 2 && v.recorded[..n] == u.recorded && v.recorded[n].body.kind == Failure
            && v.acked == n + 2 && !v.inFlight && v.server == u.server
            && |v.posted| == |u.posted| + 2 && v.posted[|u.posted|] == (n, n + 1)
  {
    var d, n := Delayed(u), |u.recorded|;
    var sent := Advance(Advance(d, Recording(Plain(Heartbeat))), Sending(2));
    var batch := BatchOf(sent, |d.posted|);
    assert batch[1] == sent.recorded[n + 1] && batch[1].body.kind == Heartbeat;
  }

  lemma AcceptedStores(u: Uplink, v: Uplink, n: nat)
    requires Consistent(u) && |u.recorded| == n + 2 == u.acked && !u.inFlight && v == Accepted(u)
    requires u.server.status.Completed? && u.server.table == u.recorded[..n]
    ensures |v.recorded| == n + 3 && v.recorded[..n + 2] == u.recorded && v.acked == n + 2
    ensures v.server.status.Completed? && v.server.table == u.recorded[..n] + [v.recorded[n + 2]]
    ensures u.posted <= v.posted
  {
    var sent := Advance(Advance(u, Recording(Plain(Failure))), Sending(1));
    var batch := BatchOf(sent, |u.posted|);
    var last := sent.recorded[n + 2];
    assert batch == [last];
    AppendRow(u.server.table, last);
  }

  lemma AppendRow(table: seq<Event>, row: Event)
    requires Sorted(table) && (table != [] ==> table[|table| - 1].number < row.number)
    ensures InsertAll(table, [row]) == table + [row]
  {
    PositionUnique(table, row.number, |table|);
    InsertLast(table, row);
    InsertOne(table, row);
  }

  lemma InsertLast(table: seq<Event>, row: Event)
    requires Position(table, row.number) == |table| && (table != [] ==> table[|table| - 1].number < row.number)
    ensures Insert(table, row) == table + [row]
  {
  }

  lemma InsertOne(table: seq<Event>, row: Event)
    ensures InsertAll(table, [row]) == Insert(table, row)
  {
    assert [row][1..] == [];
    assert InsertAll(table, [row]) == InsertAll(Insert(table, row), []);
  }

  /** After every ordinary end of a run: two acknowledged events are missing from the table, the table is
      no prefix of what was recorded, and the delayed error, arriving now, lands behind a later row. */
  lemma ClosedIntakeLosesEvents(u: Uplink)
    requires Settled(u)
    ensures var v, n, k := Accepted(Refused(Delayed(u))), |u.recorded|, |u.posted|;
            && |v.recorded| == n + 3 && v.acked == n + 2 && k < |v.posted|
            && v.recorded[n] !in v.server.table && v.recorded[n + 1] !in v.server.table
            && v.recorded[n + 2] in v.server.table
            && !Faithful(v) && Behind(v, k)
  {
    var r, n, k := Refused(Delayed(u)), |u.recorded|, |u.posted|;
    var v := Accepted(r);
    RefusedLoses(u);
    AcceptedStores(r, v, n);
    assert v.recorded[n] == r.recorded[n] && v.recorded[..n] == u.recorded && r.recorded[..n] == u.recorded;
    assert v.posted[k] == r.posted[k];
    LostEvents(v, n, k);
  }

  lemma LostEvents(v: Uplink, n: nat, k: nat)
    requires Consistent(v) && |v.recorded| == n + 3 && k < |v.posted| && v.posted[k] == (n, n + 1)
    requires v.server.status.Completed? && v.recorded[n].body.kind == Failure
    requires v.server.table == v.recorded[..n] + [v.recorded[n + 2]]
    ensures v.recorded[n] !in v.server.table && v.recorded[n + 1] !in v.server.table
    ensures v.recorded[n + 2] in v.server.table && !Faithful(v) && Behind(v, k)
  {
    assert v.server.table[n] == v.recorded[n + 2];
    assert forall e :: e in v.server.table ==> e.number <= n || e.number == n + 3;
    assert BatchOf(v, k) == [v.recorded[n]];
    assert RowBehind(v.recorded, v.server.table, n);
    NoPrefix(v.recorded, v.server.table, n, n + 2);
  }

  lemma NoPrefix(recorded: seq<Event>, table: seq<Event>, i: nat, j: nat)
    requires CountsUp(recorded) && i < j < |recorded| && recorded[i] !in table && recorded[j] in table
    ensures !(|table| <= |recorded| && table == recorded[..|table|])
  {
    if |table| <= |recorded| {
      PrefixRows(recorded, |table|);
    }
  }

  // ---------------------------------------------------------------------------
  // The bridge object
  // ---------------------------------------------------------------------------

  /** One post: what happens while the bridge waits, and whether it hears the reply. */
  datatype Attempt = Attempt(during: seq<UplinkStep>, answered: bool)

  /** What other tasks, the network and the service do. */
  predicate Outside(step: UplinkStep) {
    step.Recording? || step.Arriving? || step.Moving?
  }

  predicate AllOutside(steps: seq<UplinkStep>) {
    forall i :: 0 <= i < |steps| ==> Outside(steps[i])
  }

  predicate Fair(attempts: seq<Attempt>) {
    forall i :: 0 <= i < |attempts| ==> AllOutside(attempts[i].during)
  }

  function PostSteps(count: nat, a: Attempt): seq<UplinkStep> {
    [Sending(count)] + a.during + [Ending(a.answered)]
  }

  function BatchSize(buffered: nat, forceAll: bool): nat {
    if forceAll || buffered <= BATCH_SIZE then buffered else BATCH_SIZE
  }

  /** The steps of `flush_events`: post until the buffer is empty or a post fails; a plain flush posts
      once. */
  ghost function FlushSteps(u: Uplink, forceAll: bool, attempts: seq<Attempt>): seq<UplinkStep>
    requires Consistent(u)
    decreases |attempts|
  {
    if u.acked == |u.recorded| || attempts == [] then []
    else
      var steps := PostSteps(BatchSize(|u.recorded| - u.acked, forceAll), attempts[0]);
      var next := RunFrom(u, steps);
      if next.acked > u.acked && forceAll then steps + FlushSteps(next, forceAll, attempts[1..]) else steps
  }

  lemma PostIsRun(before: Uplink, count: nat, attempt: Attempt, sent: Uplink, waited: Uplink, after: Uplink)
    requires Consistent(before) && sent == Advance(before, Sending(count))
    requires waited == RunFrom(sent, attempt.during) && after == Advance(waited, Ending(attempt.answered))
    ensures after == RunFrom(before, PostSteps(count, attempt))
  {
    var steps, last := PostSteps(count, attempt), [Ending(attempt.answered)];
    NextStep(before, steps, 0, sent);
    assert steps[0..] == steps && steps[1..] == attempt.during + last;
    RunConcat(sent, attempt.during, last);
    NextStep(waited, last, 0, after);
    assert last[0..] == last && last[1..] == [];
  }

  /** One post of a flush: what is left to do if it goes on, and what was done if it does not. */
  lemma FlushOnward(start: Uplink, before: Uplink, after: Uplink, done: seq<UplinkStep>, steps: seq<UplinkStep>,
                    forceAll: bool, attempts: seq<Attempt>, i: nat)
    requires Consistent(start) && Consistent(before) && i < |attempts| && before.acked < |before.recorded|
    requires before == RunFrom(start, done) && after == RunFrom(before, steps)
    requires steps == PostSteps(BatchSize(|before.recorded| - before.acked, forceAll), attempts[i])
    ensures after == RunFrom(start, done + steps)
    ensures done + FlushSteps(before, forceAll, attempts[i..])
         == if after.acked > before.acked && forceAll then done + steps + FlushSteps(after, forceAll, attempts[i + 1..])
            else done + steps
  {
    assert attempts[i..][0] == attempts[i] && attempts[i..][1..] == attempts[i + 1..];
    RunConcat(start, done, steps);
    Associative(done, steps, FlushSteps(after, forceAll, attempts[i + 1..]));
  }

  /** `wire` holds a copy of every batch ever sent. */
  class Bridge {
    const service: InvestigationIntake
    var number: nat
    var buffer: seq<Event>
    var wire: seq<seq<Event>>
    var posting: bool
    var arrived: bool
    ghost var state: Uplink

    ghost predicate Valid()
      reads this, service
    {
      && Consistent(state)
      && number == |state.recorded| && buffer == state.recorded[state.acked..]
      && |wire| == |state.posted| && (forall k :: 0 <= k < |wire| ==> wire[k] == BatchOf(state, k))
      && arrived == state.arrived && posting == state.inFlight && service.State() == state.server
    }

    constructor ()
      ensures Valid() && fresh(service) && state == Start()
    {
      service := new InvestigationIntake();
      number, buffer, wire, posting, arrived, state := 0, [], [], false, false, Start();
    }

    method RecordEvent(body: EventBody)
      requires Valid()
      modifies this
      ensures Valid() && state == Advance(old(state), Recording(body))
    {
      number := number + 1;
      var event := Entry(number, body);
      buffer := buffer + [event];
      state := Advance(state, Recording(body));
    }

    /** One thing that happens while the bridge waits. */
    method Happen(step: UplinkStep)
      requires Valid() && Outside(step)
      modifies this, service
      ensures Valid() && state == Advance(old(state), step) && state.inFlight == old(state).inFlight
      ensures state.acked == old(state).acked && state.posted == old(state).posted
    {
      match step
      case Recording(body) => RecordEvent(body);
      case Arriving(k) =>
        if k < |wire| {
          service.RecordEvents(wire[k]);
          arrived := arrived || (posting && k + 1 == |wire|);
          state := Advance(state, step);
        }
      case Moving(status) =>
        service.TransitionStatus(status);
        state := Advance(state, step);
    }

    method HappenAll(steps: seq<UplinkStep>)
      requires Valid() && AllOutside(steps)
      modifies this, service
      ensures Valid() && state == RunFrom(old(state), steps) && state.inFlight == old(state).inFlight
      ensures state.acked == old(state).acked && state.posted == old(state).posted
    {
      ghost var start := state;
      for i := 0 to |steps|
        invariant Valid() && RunFrom(state, steps[i..]) == RunFrom(start, steps)
        invariant state.inFlight == start.inFlight && state.acked == start.acked && state.posted == start.posted
      {
        assert steps[i..][0] == steps[i] && steps[i..][1..] == steps[i + 1..];
        Happen(steps[i]);
      }
      assert steps[|steps|..] == [];
    }

    /** The batch is taken before the wait. */
    method Send(count: nat)
      requires Valid() && !state.inFlight && 1 <= count <= |buffer|
      modifies this
      ensures Valid() && state == Advance(old(state), Sending(count)) && state.inFlight
      ensures state.acked == old(state).acked && state.posted[|state.posted| - 1].1 == state.acked + count
    {
      wire := wire + [buffer[..count]];
      posting, arrived := true, false;
      state := Advance(state, Sending(count));
      assert wire[|wire| - 1] == BatchOf(state, |wire| - 1);
    }

    /** It is evicted only on a success reply, which the service gives for every batch it handles. */
    method Finish(count: nat, answered: bool) returns (success: bool)
      requires Valid() && state.inFlight && state.posted[|state.posted| - 1].1 == state.acked + count
      modifies this
      ensures Valid() && state == Advance(old(state), Ending(answered)) && !state.inFlight
      ensures state.acked == if success then old(state).acked + count else old(state).acked
    {
      success := answered && arrived;
      posting := false;
      state := Advance(state, Ending(answered));
      if success {
        buffer := buffer[count..];
      }
    }

    /** One request. */
    method PostBatch(count: nat, attempt: Attempt) returns (success: bool)
      requires Valid() && !state.inFlight && 1 <= count <= |buffer| && AllOutside(attempt.during)
      modifies this, service
      ensures Valid() && !state.inFlight && state == RunFrom(old(state), PostSteps(count, attempt))
      ensures state.acked == if success then old(state).acked + count else old(state).acked
    {
      ghost var before := state;
      Send(count);
      ghost var sent := state;
      HappenAll(attempt.during);
      ghost var waited := state;
      success := Finish(count, attempt.answered);
      PostIsRun(before, count, attempt, sent, waited, state);
    }

    /** One turn of the loop; `all` is what the whole flush comes to. */
    method FlushOnce(forceAll: bool, attempts: seq<Attempt>, i: nat, ghost start: Uplink, ghost done: seq<UplinkStep>,
                     ghost all: seq<UplinkStep>)
      returns (success: bool, ghost more: seq<UplinkStep>)
      requires Valid() && !state.inFlight && Fair(attempts) && i < |attempts| && buffer != []
      requires Consistent(start) && state == RunFrom(start, done)
      requires done + FlushSteps(state, forceAll, attempts[i..]) == all
      modifies this, service
      ensures Valid() && !state.inFlight && state == RunFrom(start, more)
      ensures all == if success && forceAll then more + FlushSteps(state, forceAll, attempts[i + 1..]) else more
    {
      ghost var before := state;
      var count := BatchSize(|buffer|, forceAll);
      ghost var steps := PostSteps(count, attempts[i]);
      success := PostBatch(count, attempts[i]);
      FlushOnward(start, before, state, done, steps, forceAll, attempts, i);
      more := done + steps;
    }

    /** Returns whether the whole buffer was acknowledged. */
    method FlushEvents(forceAll: bool, attempts: seq<Attempt>) returns (delivered: bool)
      requires Valid() && !state.inFlight && Fair(attempts)
      modifies this, service
      ensures Valid() && !state.inFlight
      ensures state == RunFrom(old(state), FlushSteps(old(state), forceAll, attempts))
      ensures delivered ==> buffer == []
    {
      var i := 0;
      ghost var start := state;
      ghost var done: seq<UplinkStep> := [];
      ghost var all := FlushSteps(start, forceAll, attempts);
      while buffer != [] && i < |attempts|
        invariant i <= |attempts| && Valid() && !state.inFlight
        invariant state == RunFrom(start, done) && done + FlushSteps(state, forceAll, attempts[i..]) == all
        decreases |attempts| - i
      {
        var success;
        success, done := FlushOnce(forceAll, attempts, i, start, done, all);
        if !success {
          return false;
        }
        if !forceAll {
          return buffer == [];
        }
        i := i + 1;
      }
      assert FlushSteps(state, forceAll, attempts[i..]) == [] && done + [] == done;
      delivered := buffer == [];
    }
  }
}
