/** The bridge, the service and the clients together: sessions whose tables are written by the steps of
    one uplink. */
module BridgedDelivery {
  import opened Wrappers
  import opened SequencedLog
  import opened EventStream
  import opened EventDelivery
  import opened BridgeUplink

  /** The tables that the server reads. */
  function TablesOf(s: Server): Tables {
    Tables(s.table, s.status)
  }

  /** What one step of the uplink commits. */
  function StepWrites(u: Uplink, step: UplinkStep): seq<Write>
    requires Consistent(u)
  {
    match step
    case Arriving(k) => if k < |u.posted| then IntakeWrites(u.server, BatchOf(u, k)) else []
    case Moving(status) => [MoveTo(status)]
    case _ => []
  }

  ghost function Writes(u: Uplink, steps: seq<UplinkStep>): seq<Write>
    requires Consistent(u)
    decreases |steps|
  {
    if steps == [] then [] else StepWrites(u, steps[0]) + Writes(Advance(u, steps[0]), steps[1..])
  }

  /** No batch arrives behind the table and is accepted. */
  ghost predicate NoneBehindAlong(u: Uplink, steps: seq<UplinkStep>)
    requires Consistent(u)
    decreases |steps|
  {
    steps == [] ||
    (&& !(steps[0].Arriving? && steps[0].batch < |u.posted| && Behind(u, steps[0].batch))
     && NoneBehindAlong(Advance(u, steps[0]), steps[1..]))
  }

  lemma StepCommits(u: Uplink, step: UplinkStep)
    requires Good(u)
    ensures CommitAll(TablesOf(u.server), StepWrites(u, step)) == TablesOf(Advance(u, step).server)
    ensures Appends(TablesOf(u.server), StepWrites(u, step)) <==>
              !(step.Arriving? && step.batch < |u.posted| && Behind(u, step.batch))
  {
    match step
    case Arriving(k) =>
      if k < |u.posted| {
        IntakeCommits(u.server, BatchOf(u, k));
        ArrivalAppendsExactly(u, k);
      }
    case Moving(status) => assert [MoveTo(status)][1..] == [];
    case _ =>
  }

  /** The writes of a stretch of steps have its effect on the tables, and append in order exactly when no
      batch arrives behind the table. */
  lemma {:induction false} WritesCommit(u: Uplink, steps: seq<UplinkStep>)
    requires Good(u)
    ensures Good(RunFrom(u, steps))
    ensures CommitAll(TablesOf(u.server), Writes(u, steps)) == TablesOf(RunFrom(u, steps).server)
    ensures Appends(TablesOf(u.server), Writes(u, steps)) <==> NoneBehindAlong(u, steps)
    decreases |steps|
  {
    if steps != [] {
      var next := Advance(u, steps[0]);
      StepCommits(u, steps[0]);
      StepStaysGood(u, steps[0]);
      WritesCommit(next, steps[1..]);
      CommitConcat(TablesOf(u.server), StepWrites(u, steps[0]), Writes(next, steps[1..]));
    }
  }

  // ---------------------------------------------------------------------------
  // Connections
  // ---------------------------------------------------------------------------

  /** One turn of the generator's loop, with what the uplink does before each of its reads. */
  datatype Turn = Turn(connected: bool, beforeBatch: seq<UplinkStep>, beforeStatus: seq<UplinkStep>,
                       beforeTrailing: seq<UplinkStep>)

  /** The turns of one connection up to its end, as moments of its tables. */
  ghost function Moments(u: Uplink, turns: seq<Turn>): seq<Moment>
    requires Consistent(u)
    decreases |turns|
  {
    if turns == [] then []
    else
      var t := turns[0];
      var u1 := RunFrom(u, t.beforeBatch);
      var u2 := RunFrom(u1, t.beforeStatus);
      [Moment(t.connected, Writes(u, t.beforeBatch), Writes(u1, t.beforeStatus), Writes(u2, t.beforeTrailing))]
      + (if t.connected && !Terminal(u2.server.status) then Moments(u2, turns[1..]) else [])
  }

  /** The steps that a connection sees, up to its end. */
  ghost function TurnSteps(u: Uplink, turns: seq<Turn>): seq<UplinkStep>
    requires Consistent(u)
    decreases |turns|
  {
    if turns == [] || !turns[0].connected then []
    else
      var t := turns[0];
      var u2 := RunFrom(RunFrom(u, t.beforeBatch), t.beforeStatus);
      t.beforeBatch
      + (t.beforeStatus + if Terminal(u2.server.status) then t.beforeTrailing else TurnSteps(u2, turns[1..]))
  }

  lemma {:induction false} NoneBehindConcat(u: Uplink, a: seq<UplinkStep>, b: seq<UplinkStep>)
    requires Consistent(u)
    ensures NoneBehindAlong(u, a + b) <==> NoneBehindAlong(u, a) && NoneBehindAlong(RunFrom(u, a), b)
    ensures RunFrom(u, a + b) == RunFrom(RunFrom(u, a), b)
    decreases |a|
  {
    RunConcat(u, a, b);
    if a == [] {
      assert a + b == b;
    } else {
      assert (a + b)[0] == a[0] && (a + b)[1..] == a[1..] + b;
      NoneBehindConcat(Advance(u, a[0]), a[1..], b);
    }
  }

  /** A connection over an uplink: its tables end where the uplink's do, and its writers append in order
      exactly when no batch arrives behind the table. */
  lemma {:induction false} ConnectionInOrder(u: Uplink, cursor: int, turns: seq<Turn>)
    requires Good(u)
    ensures Good(RunFrom(u, TurnSteps(u, turns)))
    ensures Serve(TablesOf(u.server), cursor, Moments(u, turns)).world
         == TablesOf(RunFrom(u, TurnSteps(u, turns)).server)
    ensures InOrder(TablesOf(u.server), Moments(u, turns)) <==> NoneBehindAlong(u, TurnSteps(u, turns))
    decreases |turns|
  {
    if turns != [] && turns[0].connected {
      var t := turns[0];
      var u1 := RunFrom(u, t.beforeBatch);
      var u2 := RunFrom(u1, t.beforeStatus);
      var moments := Moments(u, turns);
      WritesCommit(u, t.beforeBatch);
      WritesCommit(u1, t.beforeStatus);
      WritesCommit(u2, t.beforeTrailing);
      var rest := if Terminal(u2.server.status) then t.beforeTrailing else TurnSteps(u2, turns[1..]);
      NoneBehindConcat(u, t.beforeBatch, t.beforeStatus + rest);
      NoneBehindConcat(u1, t.beforeStatus, rest);
      if !Terminal(u2.server.status) {
        assert moments[1..] == Moments(u2, turns[1..]);
        ConnectionInOrder(u2, CursorAfter(cursor, Fetch(TablesOf(u1.server), cursor)), turns[1..]);
      }
    }
  }

  // ---------------------------------------------------------------------------
  // Sessions
  // ---------------------------------------------------------------------------

  /** A connection, what the uplink does before it begins, and where it is cut. */
  datatype Visit = Visit(before: seq<UplinkStep>, turns: seq<Turn>, received: Option<nat>)

  ghost function VisitSteps(u: Uplink, v: Visit): seq<UplinkStep>
    requires Consistent(u)
  {
    v.before + TurnSteps(RunFrom(u, v.before), v.turns)
  }

  ghost function SessionSteps(u: Uplink, visits: seq<Visit>): seq<UplinkStep>
    requires Consistent(u)
    decreases |visits|
  {
    if visits == [] then []
    else VisitSteps(u, visits[0]) + SessionSteps(RunFrom(u, VisitSteps(u, visits[0])), visits[1..])
  }

  ghost function ConnectionOf(u: Uplink, v: Visit): Connection
    requires Consistent(u)
  {
    Connection(Writes(u, v.before), Moments(RunFrom(u, v.before), v.turns), v.received)
  }

  ghost function Connections(u: Uplink, visits: seq<Visit>): seq<Connection>
    requires Consistent(u)
    decreases |visits|
  {
    if visits == [] then []
    else [ConnectionOf(u, visits[0])] + Connections(RunFrom(u, VisitSteps(u, visits[0])), visits[1..])
  }

  lemma VisitInOrder(u: Uplink, header: string, v: Visit)
    requires Good(u)
    ensures Good(RunFrom(u, VisitSteps(u, v)))
    ensures Connect(TablesOf(u.server), header, ConnectionOf(u, v)).world
         == TablesOf(RunFrom(u, VisitSteps(u, v)).server)
    ensures Orderly(TablesOf(u.server), ConnectionOf(u, v)) <==> NoneBehindAlong(u, VisitSteps(u, v))
  {
    var begun := RunFrom(u, v.before);
    WritesCommit(u, v.before);
    ConnectionInOrder(begun, ParseCursor(header), v.turns);
    NoneBehindConcat(u, v.before, TurnSteps(begun, v.turns));
  }

  /** The tables of a session end where its uplink does, and its writers append in order exactly when no
      batch is accepted behind the table. */
  lemma {:induction false} SessionInOrderExactly(u: Uplink, header: string, visits: seq<Visit>)
    requires Good(u)
    ensures SessionInOrder(TablesOf(u.server), header, Connections(u, visits))
       <==> NoneBehindAlong(u, SessionSteps(u, visits))
    ensures Session(TablesOf(u.server), header, Connections(u, visits)).world
         == TablesOf(RunFrom(u, SessionSteps(u, visits)).server)
    decreases |visits|
  {
    if visits != [] {
      var steps := VisitSteps(u, visits[0]);
      var next, connections := RunFrom(u, steps), Connections(u, visits);
      var first := Connect(TablesOf(u.server), header, connections[0]);
      VisitInOrder(u, header, visits[0]);
      assert connections[1..] == Connections(next, visits[1..]);
      SessionInOrderExactly(next, first.header, visits[1..]);
      NoneBehindConcat(u, steps, SessionSteps(next, visits[1..]));
    }
  }

  /** Exactly-once delivery of what the bridge records: over any reachable uplink state, any interleaving
      of its steps with any number of connections cut anywhere, the client hears an initial part of the
      table past its first cursor, in order, without gap or repeat, as long as no batch is accepted
      behind the table. */
  lemma BridgeEventsHeardOnce(past: seq<UplinkStep>, header: string, visits: seq<Visit>)
    requires NoneBehindAlong(RunFrom(Start(), past), SessionSteps(RunFrom(Start(), past), visits))
    ensures var u := RunFrom(Start(), past);
            var r := Session(TablesOf(u.server), header, Connections(u, visits));
            var heard := Between(r.world.log, ParseCursor(header), ParseCursor(r.header));
            r.messages == Messages(heard) && heard <= After(r.world.log, ParseCursor(header)) && Sorted(heard)
  {
    var u := RunFrom(Start(), past);
    RunStaysGood(Start(), past);
    SessionInOrderExactly(u, header, visits);
    ExactlyOnce(TablesOf(u.server), header, Connections(u, visits));
  }

  // ---------------------------------------------------------------------------
  // From the bridge to the client
  // ---------------------------------------------------------------------------

  lemma {:induction false} FaithfulConcat(u: Uplink, a: seq<UplinkStep>, b: seq<UplinkStep>)
    requires Consistent(u)
    ensures FaithfulAlong(u, a + b) <==> FaithfulAlong(u, a) && FaithfulAlong(RunFrom(u, a), b)
    decreases |a|
  {
    if a == [] {
      assert a + b == b;
    } else {
      assert (a + b)[0] == a[0] && (a + b)[1..] == a[1..] + b;
      FaithfulConcat(Advance(u, a[0]), a[1..], b);
    }
  }

  /** While table and bridge agree, nothing arrives behind the table. */
  lemma {:induction false} FaithfulNoneBehind(u: Uplink, steps: seq<UplinkStep>)
    requires Good(u) && FaithfulAlong(u, steps)
    ensures NoneBehindAlong(u, steps) && Faithful(RunFrom(u, steps))
    decreases |steps|
  {
    if steps != [] {
      StepStaysGood(u, steps[0]);
      if steps[0].Arriving? && steps[0].batch < |u.posted| {
        HealthyAppends(u, steps[0].batch);
      }
      FaithfulNoneBehind(Advance(u, steps[0]), steps[1..]);
    }
  }

  /** From the bridge to the client: unless the bridge hears success for a batch that was refused with
      news in it, what it records reaches the client once and in order, and what it was told is stored
      is in the table that the client reads. */
  lemma AcknowledgedEventsHeardOnce(past: seq<UplinkStep>, header: string, visits: seq<Visit>)
    requires !RefusalAnswered(Start(), false, past + SessionSteps(RunFrom(Start(), past), visits))
    ensures var u := RunFrom(Start(), past);
            var r := Session(TablesOf(u.server), header, Connections(u, visits));
            var v := RunFrom(u, SessionSteps(u, visits));
            var low, high := ParseCursor(header), ParseCursor(r.header);
            && r.messages == Messages(Between(r.world.log, low, high))
            && v.acked <= |r.world.log| <= |v.recorded| && r.world.log == v.recorded[..|r.world.log|]
  {
    var u := RunFrom(Start(), past);
    var steps := SessionSteps(u, visits);
    AcknowledgedStoredExactly(past + steps);
    FaithfulConcat(Start(), past, steps);
    RunStaysGood(Start(), past);
    FaithfulNoneBehind(u, steps);
    SessionInOrderExactly(u, header, visits);
    BridgeEventsHeardOnce(past, header, visits);
  }
}
