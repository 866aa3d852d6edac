/** Delivery of an investigation's events: the server's polling generator, a writer that commits rows
    while the generator is suspended, and a client that is cut off anywhere and reconnects with the
    id of the last event it heard. */
module EventDelivery {
  import opened Wrappers
  import opened PythonText
  import opened SequencedLog
  import opened Sequences
  import opened EventStream

  const PAGE_SIZE := 50

  // ---------------------------------------------------------------------------
  // The database row and its writers
  // ---------------------------------------------------------------------------

  datatype Status = Pending | Provisioning | Running | Completed | Failed | Cancelled

  predicate Terminal(s: Status) { s.Completed? || s.Failed? || s.Cancelled? }

  predicate Allowed(from: Status, to: Status) {
    match from
    case Pending => to.Provisioning? || to.Cancelled? || to.Failed?
    case Provisioning => to.Running? || to.Failed? || to.Cancelled?
    case Running => Terminal(to)
    case _ => false
  }

  datatype Tables = Tables(log: seq<Event>, status: Status)

  /** One committed change. A refused status change raises and leaves the row alone. */
  datatype Write = Record(event: Event) | MoveTo(status: Status)

  function Commit(w: Tables, write: Write): Tables {
    match write
    case Record(e) => w.(log := Insert(w.log, e))
    case MoveTo(s) => if Allowed(w.status, s) then w.(status := s) else w
  }

  function CommitAll(w: Tables, writes: seq<Write>): Tables
    decreases writes
  {
    if writes == [] then w else CommitAll(Commit(w, writes[0]), writes[1..])
  }

  /** What happens around one turn of the generator's loop: whether the client is still there, and
      what other tasks commit before each of its three reads. */
  datatype Moment = Moment(connected: bool, beforeBatch: seq<Write>, beforeStatus: seq<Write>,
                           beforeTrailing: seq<Write>)

  // ---------------------------------------------------------------------------
  // The generator
  // ---------------------------------------------------------------------------

  /** `get_events_stream(after_seq=cursor, limit=50)`. */
  function Fetch(w: Tables, cursor: int): seq<Event> {
    Page(w.log, cursor, PAGE_SIZE)
  }

  datatype Served = Served(chunks: seq<Chunk>, cursor: int, world: Tables)

  function PrependTo(chunks: seq<Chunk>, s: Served): Served {
    s.(chunks := chunks + s.chunks)
  }

  /** Everything one connection yields over the given moments. The list of moments ends where the
      observation ends; a client that has gone ends it too. */
  function Serve(w: Tables, cursor: int, moments: seq<Moment>): Served
    decreases moments
  {
    if moments == [] || !moments[0].connected then Served([], cursor, w)
    else
      var m := moments[0];
      var w1 := CommitAll(w, m.beforeBatch);
      var batch := Fetch(w1, cursor);
      var c1 := CursorAfter(cursor, batch);
      var w2 := CommitAll(w1, m.beforeStatus);
      if Terminal(w2.status) then
        var w3 := CommitAll(w2, m.beforeTrailing);
        var trailing := Fetch(w3, c1);
        Served(Frames(batch) + Frames(trailing), CursorAfter(c1, trailing), w3)
      else
        PrependTo(Frames(batch) + [KeepAlive], Serve(w2, c1, moments[1..]))
  }

  /** The tables the service reads. */
  class InvestigationStore {
    var log: seq<Event>
    var status: Status

    ghost function Contents(): Tables
      reads this
    {
      Tables(log, status)
    }

    constructor (w: Tables)
      ensures Contents() == w
    {
      log, status := w.log, w.status;
    }

    /** Other tasks run while the generator is suspended. */
    method Suspend(writes: seq<Write>)
      modifies this
      ensures Contents() == CommitAll(old(Contents()), writes)
    {
      var i := 0;
      ghost var start := Contents();
      while i < |writes|
        invariant i <= |writes|
        invariant CommitAll(Contents(), writes[i..]) == CommitAll(start, writes)
      {
        var w := Commit(Tables(log, status), writes[i]);
        log, status := w.log, w.status;
        assert writes[i..][1..] == writes[i + 1..];
        i := i + 1;
      }
    }
  }

  /** `for event in events: current_seq = event.seq; yield frame`. */
  method EmitAll(events: seq<Event>, cursor: int, sent: seq<Chunk>) returns (current: int, chunks: seq<Chunk>)
    ensures current == CursorAfter(cursor, events) && chunks == sent + Frames(events)
  {
    current, chunks := cursor, sent;
    for i := 0 to |events|
      invariant current == CursorAfter(cursor, events[..i])
      invariant chunks + Frames(events[i..]) == sent + Frames(events)
    {
      assert events[i..][0] == events[i] && events[i..][1..] == events[i + 1..];
      Associative(chunks, [Frame(events[i])], Frames(events[i + 1..]));
      current := events[i].number;
      chunks := chunks + [Frame(events[i])];
    }
    assert events[..|events|] == events;
  }

  /** `event_generator`. */
  method EventGenerator(store: InvestigationStore, lastSeq: int, moments: seq<Moment>) returns (chunks: seq<Chunk>)
    modifies store
    ensures chunks == Serve(old(store.Contents()), lastSeq, moments).chunks
    ensures store.Contents() == Serve(old(store.Contents()), lastSeq, moments).world
  {
    var current := lastSeq;
    chunks := [];
    ghost var whole := Serve(store.Contents(), lastSeq, moments);
    var i := 0;
    while i < |moments|
      invariant i <= |moments|
      invariant PrependTo(chunks, Serve(store.Contents(), current, moments[i..])) == whole
    {
      assert moments[i..][0] == moments[i] && moments[i..][1..] == moments[i + 1..];
      if !moments[i].connected {
        return;
      }
      ghost var sent := chunks;
      store.Suspend(moments[i].beforeBatch);
      var events := Page(store.log, current, PAGE_SIZE);
      current, chunks := EmitAll(events, current, chunks);
      store.Suspend(moments[i].beforeStatus);
      if Terminal(store.status) {
        store.Suspend(moments[i].beforeTrailing);
        var trailing := Page(store.log, current, PAGE_SIZE);
        current, chunks := EmitAll(trailing, current, chunks);
        Associative(sent, Frames(events), Frames(trailing));
        return;
      }
      chunks := chunks + [KeepAlive];
      ghost var rest := Serve(store.Contents(), current, moments[i + 1..]).chunks;
      Associative(sent, Frames(events), [KeepAlive]);
      Associative(sent, Frames(events) + [KeepAlive], rest);
      i := i + 1;
    }
  }

  // ---------------------------------------------------------------------------
  // What one connection delivers
  // ---------------------------------------------------------------------------

  lemma {:induction false} CommitAllKeeps(w: Tables, writes: seq<Write>)
    requires Sorted(w.log)
    ensures Sorted(CommitAll(w, writes).log) && Grows(w.log, CommitAll(w, writes).log)
    ensures Terminal(w.status) ==> CommitAll(w, writes).status == w.status
    decreases writes
  {
    if writes != [] {
      if writes[0].Record? {
        InsertSorted(w.log, writes[0].event);
        InsertMembers(w.log, writes[0].event);
      }
      CommitAllKeeps(Commit(w, writes[0]), writes[1..]);
    }
  }

  ghost predicate NoneLate(w: Tables, writes: seq<Write>, low: int, high: int)
    decreases writes
  {
    writes == [] ||
    (&& !(writes[0].Record? && Late(w.log, writes[0].event, low, high))
     && NoneLate(Commit(w, writes[0]), writes[1..], low, high))
  }

  /** No writer commits a late row while this connection is open. */
  ghost predicate InTime(w: Tables, low: int, cursor: int, moments: seq<Moment>)
    decreases moments
  {
    moments == [] || !moments[0].connected ||
    var m := moments[0];
    var w1 := CommitAll(w, m.beforeBatch);
    var c1 := CursorAfter(cursor, Fetch(w1, cursor));
    var w2 := CommitAll(w1, m.beforeStatus);
    && NoneLate(w, m.beforeBatch, low, cursor)
    && NoneLate(w1, m.beforeStatus, low, c1)
    && (if Terminal(w2.status) then NoneLate(w2, m.beforeTrailing, low, c1)
        else InTime(w2, low, c1, moments[1..]))
  }

  lemma {:induction false} InTimeWritesKeepBetween(w: Tables, writes: seq<Write>, low: int, high: int)
    requires Sorted(w.log) && low <= high && NoneLate(w, writes, low, high)
    ensures Between(CommitAll(w, writes).log, low, high) == Between(w.log, low, high)
    decreases writes
  {
    if writes != [] {
      if writes[0].Record? {
        InsertSorted(w.log, writes[0].event);
        InsertKeepsBetween(w.log, writes[0].event, low, high);
      }
      InTimeWritesKeepBetween(Commit(w, writes[0]), writes[1..], low, high);
    }
  }

  /** Reading a page after some writes: the rows passed grow by exactly that page. */
  lemma ReadAfterWrites(w: Tables, writes: seq<Write>, low: int, cursor: int)
    requires Sorted(w.log) && low <= cursor && NoneLate(w, writes, low, cursor)
    ensures var w1 := CommitAll(w, writes);
            var page := Fetch(w1, cursor);
            && Sorted(w1.log) && cursor <= CursorAfter(cursor, page)
            && Between(w.log, low, cursor) + page == Between(w1.log, low, CursorAfter(cursor, page))
  {
    CommitAllKeeps(w, writes);
    InTimeWritesKeepBetween(w, writes, low, cursor);
    PageExtends(CommitAll(w, writes).log, low, cursor, PAGE_SIZE);
  }

  /** When no row is late, the events sent are exactly the rows the cursor moved over. */
  lemma {:induction false} ServeFollowsLog(w: Tables, low: int, cursor: int, moments: seq<Moment>)
    requires Sorted(w.log) && low <= cursor && InTime(w, low, cursor, moments)
    ensures var s := Serve(w, cursor, moments);
            && Sorted(s.world.log) && cursor <= s.cursor
            && Between(w.log, low, cursor) + EventsOf(s.chunks) == Between(s.world.log, low, s.cursor)
    decreases moments
  {
    if moments == [] || !moments[0].connected {
      assert Between(w.log, low, cursor) + [] == Between(w.log, low, cursor);
    } else {
      var m := moments[0];
      var w1 := CommitAll(w, m.beforeBatch);
      var batch := Fetch(w1, cursor);
      var c1 := CursorAfter(cursor, batch);
      var w2 := CommitAll(w1, m.beforeStatus);
      ReadAfterWrites(w, m.beforeBatch, low, cursor);
      CommitAllKeeps(w1, m.beforeStatus);
      InTimeWritesKeepBetween(w1, m.beforeStatus, low, c1);
      if Terminal(w2.status) {
        var trailing := Fetch(CommitAll(w2, m.beforeTrailing), c1);
        ReadAfterWrites(w2, m.beforeTrailing, low, c1);
        EventsOfConcat(Frames(batch), Frames(trailing));
        Associative(Between(w.log, low, cursor), batch, trailing);
      } else {
        ServeFollowsLog(w2, low, c1, moments[1..]);
        ServedEvents(batch, Serve(w2, c1, moments[1..]));
        Associative(Between(w.log, low, cursor), batch, EventsOf(Serve(w2, c1, moments[1..]).chunks));
      }
    }
  }

  lemma ServedEvents(batch: seq<Event>, rest: Served)
    ensures EventsOf(PrependTo(Frames(batch) + [KeepAlive], rest).chunks) == batch + EventsOf(rest.chunks)
  {
    EventsOfConcat(Frames(batch) + [KeepAlive], rest.chunks);
    EventsOfConcat(Frames(batch), [KeepAlive]);
    assert EventsOf([KeepAlive]) == [];
    assert batch + [] == batch;
  }

  /** Whatever the writers do, a connection never repeats or reorders an event, and never invents one. */
  lemma {:induction false} ServeOrdered(w: Tables, cursor: int, moments: seq<Moment>)
    requires Sorted(w.log)
    ensures var s := Serve(w, cursor, moments);
            && Sorted(s.world.log) && Grows(w.log, s.world.log) && cursor <= s.cursor
            && Sorted(EventsOf(s.chunks))
            && forall e :: e in EventsOf(s.chunks) ==> e in s.world.log && cursor < e.number <= s.cursor
    decreases moments
  {
    if moments != [] && moments[0].connected {
      var m := moments[0];
      var w1 := CommitAll(w, m.beforeBatch);
      var batch := Fetch(w1, cursor);
      var c1 := CursorAfter(cursor, batch);
      var w2 := CommitAll(w1, m.beforeStatus);
      CommitAllKeeps(w, m.beforeBatch);
      CommitAllKeeps(w1, m.beforeStatus);
      PageOrdered(w1.log, cursor, PAGE_SIZE);
      if Terminal(w2.status) {
        var w3 := CommitAll(w2, m.beforeTrailing);
        CommitAllKeeps(w2, m.beforeTrailing);
        PageOrdered(w3.log, c1, PAGE_SIZE);
        EventsOfConcat(Frames(batch), Frames(Fetch(w3, c1)));
        SortedConcat(batch, Fetch(w3, c1), c1);
      } else {
        var rest := Serve(w2, c1, moments[1..]);
        ServeOrdered(w2, c1, moments[1..]);
        ServedEvents(batch, rest);
        SortedConcat(batch, EventsOf(rest.chunks), c1);
      }
    }
  }

  lemma {:induction false} LateWrite(w: Tables, writes: seq<Write>, low: int, high: int) returns (e: Event)
    requires Sorted(w.log) && !NoneLate(w, writes, low, high)
    ensures e !in w.log && e in CommitAll(w, writes).log && low < e.number <= high
    decreases writes
  {
    var next := Commit(w, writes[0]);
    if writes[0].Record? {
      InsertSorted(w.log, writes[0].event);
      InsertMembers(w.log, writes[0].event);
    }
    CommitAllKeeps(next, writes[1..]);
    if writes[0].Record? && Late(w.log, writes[0].event, low, high) {
      e := writes[0].event;
    } else {
      e := LateWrite(next, writes[1..], low, high);
    }
  }

  /** A late row is in the log, inside what the cursor moved over, and is never sent. */
  lemma {:induction false} LateRowLost(w: Tables, low: int, cursor: int, moments: seq<Moment>) returns (e: Event)
    requires Sorted(w.log) && low <= cursor && !InTime(w, low, cursor, moments)
    ensures var s := Serve(w, cursor, moments);
            && e !in w.log && e in s.world.log && low < e.number <= s.cursor
            && e !in EventsOf(s.chunks)
    decreases moments
  {
    var m := moments[0];
    var w1 := CommitAll(w, m.beforeBatch);
    var batch := Fetch(w1, cursor);
    var c1 := CursorAfter(cursor, batch);
    var w2 := CommitAll(w1, m.beforeStatus);
    var w3 := CommitAll(w2, m.beforeTrailing);
    CommitAllKeeps(w, m.beforeBatch);
    CommitAllKeeps(w1, m.beforeStatus);
    CommitAllKeeps(w2, m.beforeTrailing);
    PageOrdered(w1.log, cursor, PAGE_SIZE);
    PageOrdered(w3.log, c1, PAGE_SIZE);
    ServeOrdered(w, cursor, moments);
    var tail: seq<Event>;
    if Terminal(w2.status) {
      tail := Fetch(w3, c1);
      EventsOfConcat(Frames(batch), Frames(tail));
    } else {
      ServeOrdered(w2, c1, moments[1..]);
      tail := EventsOf(Serve(w2, c1, moments[1..]).chunks);
      ServedEvents(batch, Serve(w2, c1, moments[1..]));
    }
    if !NoneLate(w, m.beforeBatch, low, cursor) {
      e := LateWrite(w, m.beforeBatch, low, cursor);
    } else if !NoneLate(w1, m.beforeStatus, low, c1) {
      e := LateWrite(w1, m.beforeStatus, low, c1);
    } else if Terminal(w2.status) {
      e := LateWrite(w2, m.beforeTrailing, low, c1);
    } else {
      e := LateRowLost(w2, low, c1, moments[1..]);
    }
  }

  /** One connection sends exactly the rows its cursor moves over, with no gap, exactly when no
      writer inserts a row behind the cursor. The service's own insert accepts any number. */
  lemma GapFreeExactlyWhenInTime(w: Tables, cursor: int, moments: seq<Moment>)
    requires Sorted(w.log)
    ensures var s := Serve(w, cursor, moments);
            EventsOf(s.chunks) == Between(s.world.log, cursor, s.cursor) <==> InTime(w, cursor, cursor, moments)
  {
    var s := Serve(w, cursor, moments);
    if InTime(w, cursor, cursor, moments) {
      ServeFollowsLog(w, cursor, cursor, moments);
      assert Between(w.log, cursor, cursor) == [];
    } else {
      var e := LateRowLost(w, cursor, cursor, moments);
      ServeOrdered(w, cursor, moments);
      BetweenMember(s.world.log, cursor, s.cursor, e);
    }
  }

  function KeepAlives(chunks: seq<Chunk>): nat {
    if chunks == [] then 0 else (if chunks[0].KeepAlive? then 1 else 0) + KeepAlives(chunks[1..])
  }

  lemma {:induction false} KeepAlivesConcat(a: seq<Chunk>, b: seq<Chunk>)
    ensures KeepAlives(a + b) == KeepAlives(a) + KeepAlives(b)
  {
    if a == [] {
      assert a + b == b;
    } else {
      assert (a + b)[0] == a[0] && (a + b)[1..] == a[1..] + b;
      KeepAlivesConcat(a[1..], b);
    }
  }

  lemma {:induction false} FramesAreAlive(events: seq<Event>)
    ensures KeepAlives(Frames(events)) == 0
  {
    if events != [] {
      assert Frames(events)[1..] == Frames(events[1..]);
      FramesAreAlive(events[1..]);
    }
  }

  /** How many turns with the client present find the investigation unfinished. */
  function WaitingTurns(w: Tables, moments: seq<Moment>): nat
    decreases moments
  {
    if moments == [] || !moments[0].connected then 0
    else
      var w2 := CommitAll(CommitAll(w, moments[0].beforeBatch), moments[0].beforeStatus);
      if w2.status.Completed? || w2.status.Failed? || w2.status.Cancelled? then 0
      else 1 + WaitingTurns(w2, moments[1..])
  }

  /** A client that waits hears a keep-alive comment for every turn that does not end the connection, and
      none besides. */
  lemma {:induction false} KeepAlivePerTurn(w: Tables, cursor: int, moments: seq<Moment>)
    ensures KeepAlives(Serve(w, cursor, moments).chunks) == WaitingTurns(w, moments)
    decreases moments
  {
    if moments != [] && moments[0].connected {
      var m := moments[0];
      var w1 := CommitAll(w, m.beforeBatch);
      var batch := Fetch(w1, cursor);
      var c1 := CursorAfter(cursor, batch);
      var w2 := CommitAll(w1, m.beforeStatus);
      FramesAreAlive(batch);
      if Terminal(w2.status) {
        var trailing := Fetch(CommitAll(w2, m.beforeTrailing), c1);
        FramesAreAlive(trailing);
        KeepAlivesConcat(Frames(batch), Frames(trailing));
      } else {
        KeepAlivePerTurn(w2, c1, moments[1..]);
        KeepAlivesConcat(Frames(batch), [KeepAlive]);
        KeepAlivesConcat(Frames(batch) + [KeepAlive], Serve(w2, c1, moments[1..]).chunks);
        assert [KeepAlive][1..] == [];
      }
    }
  }

  // ---------------------------------------------------------------------------
  // The life of an investigation
  // ---------------------------------------------------------------------------

  /** The three statuses of an unfinished investigation in order, then the finished ones. */
  function Stage(s: Status): nat {
    match s
    case Pending => 0
    case Provisioning => 1
    case Running => 2
    case _ => 3
  }

  /** A move is allowed exactly to the next stage, or, from an unfinished one, to failure or
      cancellation. */
  lemma MovesExactly(from: Status, to: Status)
    ensures Allowed(from, to) <==> Stage(from) < 3 && (Stage(to) == Stage(from) + 1 || to.Failed? || to.Cancelled?)
    ensures Terminal(from) <==> Stage(from) == 3
  {
  }

  /** Whatever is committed, an investigation never goes back, keeps its end, and completes only after it
      was running. */
  lemma {:induction false} LifeMovesOn(w: Tables, writes: seq<Write>)
    ensures var after := CommitAll(w, writes);
            && Stage(w.status) <= Stage(after.status) && (Stage(w.status) == 3 ==> after.status == w.status)
            && (after.status.Completed? && !w.status.Completed? ==>
                  exists k :: 0 <= k <= |writes| && CommitAll(w, writes[..k]).status.Running?)
    decreases writes
  {
    if writes != [] {
      var next := Commit(w, writes[0]);
      LifeMovesOn(next, writes[1..]);
      if CommitAll(w, writes).status.Completed? && !w.status.Completed? {
        assert writes[..0] == [];
        if !w.status.Running? {
          var k :| 0 <= k <= |writes[1..]| && CommitAll(next, writes[1..][..k]).status.Running?;
          assert writes[..k + 1][0] == writes[0] && writes[..k + 1][1..] == writes[1..][..k];
          assert CommitAll(w, writes[..k + 1]) == CommitAll(next, writes[1..][..k]);
        } else {
          assert CommitAll(w, writes[..0]).status.Running?;
        }
      }
    }
  }

  // ---------------------------------------------------------------------------
  // Writers that append in order
  // ---------------------------------------------------------------------------

  /** Every recorded row is a duplicate or has a larger number than all rows before it. */
  ghost predicate Appends(w: Tables, writes: seq<Write>)
    decreases writes
  {
    writes == [] ||
    (&& (writes[0].Record? ==>
           || Numbered(w.log, writes[0].event.number)
           || Position(w.log, writes[0].event.number) == |w.log|)
     && Appends(Commit(w, writes[0]), writes[1..]))
  }

  ghost predicate InOrder(w: Tables, moments: seq<Moment>)
    decreases moments
  {
    moments == [] || !moments[0].connected ||
    var m := moments[0];
    var w1 := CommitAll(w, m.beforeBatch);
    var w2 := CommitAll(w1, m.beforeStatus);
    && Appends(w, m.beforeBatch)
    && Appends(w1, m.beforeStatus)
    && (if Terminal(w2.status) then Appends(w2, m.beforeTrailing) else InOrder(w2, moments[1..]))
  }

  lemma {:induction false} AppendsNoneLate(w: Tables, writes: seq<Write>, low: int, high: int)
    requires Sorted(w.log) && Appends(w, writes) && Reached(w.log, low, high)
    ensures NoneLate(w, writes, low, high)
    decreases writes
  {
    if writes != [] {
      if writes[0].Record? {
        InsertSorted(w.log, writes[0].event);
        InsertMembers(w.log, writes[0].event);
      }
      ReachedGrows(w.log, Commit(w, writes[0]).log, low, high);
      AppendsNoneLate(Commit(w, writes[0]), writes[1..], low, high);
    }
  }

  lemma {:induction false} InOrderIsInTime(w: Tables, low: int, cursor: int, moments: seq<Moment>)
    requires Sorted(w.log) && InOrder(w, moments) && Reached(w.log, low, cursor)
    ensures InTime(w, low, cursor, moments)
    decreases moments
  {
    if moments != [] && moments[0].connected {
      var m := moments[0];
      var w1 := CommitAll(w, m.beforeBatch);
      var c1 := CursorAfter(cursor, Fetch(w1, cursor));
      var w2 := CommitAll(w1, m.beforeStatus);
      CommitAllKeeps(w, m.beforeBatch);
      CommitAllKeeps(w1, m.beforeStatus);
      AppendsNoneLate(w, m.beforeBatch, low, cursor);
      ReachedGrows(w.log, w1.log, low, cursor);
      ReachedAfterPage(w1.log, low, cursor, PAGE_SIZE);
      AppendsNoneLate(w1, m.beforeStatus, low, c1);
      ReachedGrows(w1.log, w2.log, low, c1);
      if Terminal(w2.status) {
        AppendsNoneLate(w2, m.beforeTrailing, low, c1);
      } else {
        InOrderIsInTime(w2, low, c1, moments[1..]);
      }
    }
  }

  // ---------------------------------------------------------------------------
  // Clients that are cut off and come back
  // ---------------------------------------------------------------------------

  /** A connection, and what other tasks commit before it begins. `received` says how much of the text
      arrived before the cut; `None` is all of it. */
  datatype Connection = Connection(before: seq<Write>, moments: seq<Moment>, received: Option<nat>)

  /** What the `Last-Event-ID` header means to the server. */
  function ParseCursor(header: string): int {
    if header == "" then 0
    else match ParseInt(header) case Some(n) => n case None => 0
  }

  function Received(chunks: seq<Chunk>, received: Option<nat>): string {
    var text := Render(chunks);
    if received.Some? && received.value <= |text| then text[..received.value] else text
  }

  datatype Outcome = Outcome(messages: seq<Message>, header: string, world: Tables)

  function ServedOn(w: Tables, header: string, c: Connection): Served {
    Serve(CommitAll(w, c.before), ParseCursor(header), c.moments)
  }

  /** One connection: the client keeps the messages it heard and the id of the last of them. */
  function Connect(w: Tables, header: string, c: Connection): Outcome {
    var s := ServedOn(w, header, c);
    var heard := Feed(NewStream(header), Received(s.chunks, c.received)).heard;
    Outcome(heard, if heard == [] then header else heard[|heard| - 1].lastEventId, s.world)
  }

  function Session(w: Tables, header: string, connections: seq<Connection>): Outcome
    decreases connections
  {
    if connections == [] then Outcome([], header, w)
    else
      var first := Connect(w, header, connections[0]);
      var rest := Session(first.world, first.header, connections[1..]);
      rest.(messages := first.messages + rest.messages)
  }

  ghost predicate Orderly(w: Tables, c: Connection) {
    Appends(w, c.before) && InOrder(CommitAll(w, c.before), c.moments)
  }

  ghost predicate SessionInOrder(w: Tables, header: string, connections: seq<Connection>)
    decreases connections
  {
    connections == [] ||
    (&& Orderly(w, connections[0])
     && var first := Connect(w, header, connections[0]);
        SessionInOrder(first.world, first.header, connections[1..]))
  }

  /** A client without a usable id is served from the start, like one that heard nothing yet. */
  lemma NoCursorStartsOver(w: Tables, header: string, c: Connection)
    requires header == "" || ParseInt(header).None?
    ensures ServedOn(w, header, c) == ServedOn(w, Decimal(0), c)
  {
    CursorOfPrinted(0);
  }

  lemma CursorOfPrinted(n: int)
    ensures ParseCursor(Decimal(n)) == n
  {
    DecimalRoundTrip(n);
  }

  /** What was heard is an initial part of what was sent, all of it when nothing was cut. */
  lemma HeardIsPrefix(chunks: seq<Chunk>, received: Option<nat>, header: string) returns (k: nat)
    ensures k <= |EventsOf(chunks)| && (received.None? ==> k == |EventsOf(chunks)|)
    ensures Feed(NewStream(header), Received(chunks, received)).heard == Messages(EventsOf(chunks)[..k])
  {
    var p := NewStream(header);
    if received.Some? && received.value <= |Render(chunks)| {
      CutStream(p, chunks, received.value);
      var whole := WholePieces(Map(Print, chunks), received.value);
      EventsOfPrefix(chunks, whole);
      k := |EventsOf(chunks[..whole])|;
      assert EventsOf(chunks)[..k] == EventsOf(chunks[..whole]);
      assert p.heard + Messages(EventsOf(chunks)[..k]) == Messages(EventsOf(chunks)[..k]);
    } else {
      FrameRoundTrip(chunks, header);
      k := |EventsOf(chunks)|;
      assert EventsOf(chunks)[..k] == EventsOf(chunks);
    }
  }

  lemma {:induction false} MessagesConcat(a: seq<Event>, b: seq<Event>)
    ensures Messages(a + b) == Messages(a) + Messages(b)
  {
    if a == [] {
      assert a + b == b && Messages(a) + Messages(b) == Messages(b);
    } else {
      assert (a + b)[0] == a[0] && (a + b)[1..] == a[1..] + b;
      MessagesConcat(a[1..], b);
      Associative([Printed(a[0])], Messages(a[1..]), Messages(b));
    }
  }

  lemma LastBetween(log: seq<Event>, low: int, cursor: int)
    requires Sorted(log) && low <= cursor && Reached(log, low, cursor)
    ensures CursorAfter(low, Between(log, low, cursor)) == cursor
  {
    var all := Between(log, low, cursor);
    if cursor == low {
      assert all == [];
    } else {
      var i :| 0 <= i < |log| && log[i].number == cursor;
      PositionMonotone(log, low, cursor);
      SortedAt(log, i, i + 1);
      PositionUnique(log, cursor, i + 1);
    }
  }

  /** One connection of an in-order session: what the client has heard so far stays exactly the
      rows between its first and its latest cursor. */
  lemma ConnectFollowsLog(w: Tables, low: int, header: string, c: Connection)
    requires Sorted(w.log) && Orderly(w, c)
    requires low <= ParseCursor(header) && Reached(w.log, low, ParseCursor(header))
    ensures var r := Connect(w, header, c);
            var next := ParseCursor(r.header);
            && Sorted(r.world.log) && low <= next && Reached(r.world.log, low, next)
            && Messages(Between(w.log, low, ParseCursor(header))) + r.messages
               == Messages(Between(r.world.log, low, next))
  {
    var cursor := ParseCursor(header);
    var w0 := CommitAll(w, c.before);
    var s := ServedOn(w, header, c);
    var sent := EventsOf(s.chunks);
    AppendsKeepBetween(w, c.before, low, cursor);
    InOrderIsInTime(w0, low, cursor, c.moments);
    ServeFollowsLog(w0, low, cursor, c.moments);
    ServeOrdered(w0, cursor, c.moments);
    var k := HeardIsPrefix(s.chunks, c.received, header);
    var before := Between(w.log, low, cursor);
    KeptPart(s.world.log, low, s.cursor, before, sent, k);
    MessagesConcat(before, sent[..k]);
    LastBetween(w.log, low, cursor);
    ReachedGrows(w0.log, s.world.log, low, cursor);
    HeaderAfter(header, sent[..k]);
    LastOfConcat(low, before, sent[..k]);
  }

  lemma AppendsKeepBetween(w: Tables, writes: seq<Write>, low: int, cursor: int)
    requires Sorted(w.log) && Appends(w, writes) && low <= cursor && Reached(w.log, low, cursor)
    ensures var w1 := CommitAll(w, writes);
            && Sorted(w1.log) && Reached(w1.log, low, cursor)
            && Between(w1.log, low, cursor) == Between(w.log, low, cursor)
  {
    CommitAllKeeps(w, writes);
    AppendsNoneLate(w, writes, low, cursor);
    InTimeWritesKeepBetween(w, writes, low, cursor);
    ReachedGrows(w.log, CommitAll(w, writes).log, low, cursor);
  }

  lemma KeptPart(log: seq<Event>, low: int, high: int, before: seq<Event>, sent: seq<Event>, k: nat)
    requires Sorted(log) && low <= high && k <= |sent| && before + sent == Between(log, low, high)
    ensures var kept := before + sent[..k];
            && low <= CursorAfter(low, kept)
            && kept == Between(log, low, CursorAfter(low, kept))
            && Reached(log, low, CursorAfter(low, kept))
  {
    var kept := before + sent[..k];
    CutTail(before, sent, k);
    BetweenCut(log, low, high, |before| + k);
    if kept != [] {
      var last := kept[|kept| - 1];
      assert last in Between(log, low, CursorAfter(low, kept));
      BetweenMember(log, low, CursorAfter(low, kept), last);
    }
  }

  lemma LastOfConcat(low: int, a: seq<Event>, b: seq<Event>)
    ensures CursorAfter(low, a + b) == CursorAfter(CursorAfter(low, a), b)
  {
  }

  /** The header a client comes back with stands for the last event it heard. */
  lemma HeaderAfter(header: string, heard: seq<Event>)
    ensures var m := Messages(heard);
            ParseCursor(if m == [] then header else m[|m| - 1].lastEventId) == CursorAfter(ParseCursor(header), heard)
  {
    if heard != [] {
      CursorOfPrinted(heard[|heard| - 1].number);
    }
  }

  lemma {:induction false} SessionFollowsLog(w: Tables, low: int, header: string, connections: seq<Connection>)
    requires Sorted(w.log) && SessionInOrder(w, header, connections)
    requires low <= ParseCursor(header) && Reached(w.log, low, ParseCursor(header))
    ensures var r := Session(w, header, connections);
            && Sorted(r.world.log) && low <= ParseCursor(r.header)
            && Messages(Between(w.log, low, ParseCursor(header))) + r.messages
               == Messages(Between(r.world.log, low, ParseCursor(r.header)))
    decreases connections
  {
    var before := Messages(Between(w.log, low, ParseCursor(header)));
    if connections == [] {
      assert before + [] == before;
    } else {
      var first := Connect(w, header, connections[0]);
      ConnectFollowsLog(w, low, header, connections[0]);
      SessionFollowsLog(first.world, low, first.header, connections[1..]);
      Associative(before, first.messages, Session(first.world, first.header, connections[1..]).messages);
    }
  }

  /** Exactly-once resumption. For every interleaving of in-order writers with the server's reads,
      and any number of connections each cut at any character, the messages a client hears over all
      its connections are those of an initial part of the log past its first cursor: in order,
      without a gap and without a repeat. */
  lemma ExactlyOnce(w: Tables, header: string, connections: seq<Connection>)
    requires Sorted(w.log) && SessionInOrder(w, header, connections)
    ensures var r := Session(w, header, connections);
            var heard := Between(r.world.log, ParseCursor(header), ParseCursor(r.header));
            && r.messages == Messages(heard)
            && heard <= After(r.world.log, ParseCursor(header))
            && Sorted(heard)
  {
    var low := ParseCursor(header);
    var r := Session(w, header, connections);
    SessionFollowsLog(w, low, header, connections);
    assert Between(w.log, low, low) == [];
    assert Messages([]) + r.messages == r.messages;
    BetweenIsPrefix(r.world.log, low, ParseCursor(r.header));
  }

  // ---------------------------------------------------------------------------
  // Clients that resume with the last event ID string
  // ---------------------------------------------------------------------------

  /** The chunks that arrived whole. */
  function WholeOf(chunks: seq<Chunk>, received: Option<nat>): seq<Chunk> {
    if received.Some? && received.value <= |Render(chunks)| then
      chunks[..WholePieces(Map(Print, chunks), received.value)]
    else chunks
  }

  /** A client after the standard resumes with whatever last event ID string its parser holds. */
  function StandardConnect(w: Tables, header: string, c: Connection): Outcome {
    var s := ServedOn(w, header, c);
    var parser := Feed(NewStream(header), Received(s.chunks, c.received));
    Outcome(parser.heard, parser.lastEventId, s.world)
  }

  /** Whole keep-alive comments and no whole event came, and there was a place to lose. */
  predicate Forgets(w: Tables, header: string, c: Connection) {
    Wipes(WholeOf(ServedOn(w, header, c).chunks, c.received), header)
  }

  lemma WholeHeard(chunks: seq<Chunk>, received: Option<nat>, header: string)
    ensures var p := Feed(NewStream(header), Received(chunks, received));
            var whole := WholeOf(chunks, received);
            && p.heard == Messages(EventsOf(whole))
            && p.lastEventId == if Wipes(whole, header) then "" else Place(EventsOf(whole), header)
  {
    var p := NewStream(header);
    var n := |Render(chunks)|;
    assert p.heard == [];
    if received.Some? && received.value <= n {
      CutStream(p, chunks, received.value);
      StandardClientKeepsItsPlace(chunks, header, received.value);
      assert [] + Messages(EventsOf(WholeOf(chunks, received))) == Messages(EventsOf(WholeOf(chunks, received)));
    } else {
      FrameRoundTrip(chunks, header);
      FeedRender(p, chunks);
      LastEventIdAfter(p, chunks);
    }
  }

  /** Both clients hear the same on a connection; the one after the standard resumes at the same place
      exactly when the connection does not make it forget, and from the start otherwise. */
  lemma StandardConnectExactly(w: Tables, header: string, c: Connection)
    ensures var mine, other := Connect(w, header, c), StandardConnect(w, header, c);
            && other.messages == mine.messages && other.world == mine.world
            && (other.header == mine.header <==> !Forgets(w, header, c))
            && (Forgets(w, header, c) ==> ParseCursor(other.header) == 0)
  {
    var chunks := ServedOn(w, header, c).chunks;
    WholeHeard(chunks, c.received, header);
  }

  function StandardSession(w: Tables, header: string, connections: seq<Connection>): Outcome
    decreases connections
  {
    if connections == [] then Outcome([], header, w)
    else
      var first := StandardConnect(w, header, connections[0]);
      var rest := StandardSession(first.world, first.header, connections[1..]);
      rest.(messages := first.messages + rest.messages)
  }

  ghost predicate NeverForgets(w: Tables, header: string, connections: seq<Connection>)
    decreases connections
  {
    connections == [] ||
    (&& !Forgets(w, header, connections[0])
     && var first := StandardConnect(w, header, connections[0]);
        NeverForgets(first.world, first.header, connections[1..]))
  }

  /** The two clients resume every connection of a session at the same place. */
  ghost predicate SamePlaces(w: Tables, header: string, connections: seq<Connection>)
    decreases connections
  {
    connections == [] ||
    var first := StandardConnect(w, header, connections[0]);
    first.header == Connect(w, header, connections[0]).header && SamePlaces(first.world, first.header, connections[1..])
  }

  lemma {:induction false} SamePlacesExactly(w: Tables, header: string, connections: seq<Connection>)
    ensures SamePlaces(w, header, connections) <==> NeverForgets(w, header, connections)
    ensures NeverForgets(w, header, connections) ==>
              StandardSession(w, header, connections) == Session(w, header, connections)
    decreases connections
  {
    if connections != [] {
      var first := StandardConnect(w, header, connections[0]);
      StandardConnectExactly(w, header, connections[0]);
      SamePlacesExactly(first.world, first.header, connections[1..]);
    }
  }

  /** A client after the standard hears everything exactly once over any session in which no connection
      makes it forget; and only such a session keeps its place throughout. */
  lemma StandardClientHearsOnce(w: Tables, header: string, connections: seq<Connection>)
    requires Sorted(w.log) && SessionInOrder(w, header, connections)
    ensures SamePlaces(w, header, connections) <==> NeverForgets(w, header, connections)
    ensures NeverForgets(w, header, connections) ==>
              var r := StandardSession(w, header, connections);
              var heard := Between(r.world.log, ParseCursor(header), ParseCursor(r.header));
              r.messages == Messages(heard) && heard <= After(r.world.log, ParseCursor(header)) && Sorted(heard)
  {
    SamePlacesExactly(w, header, connections);
    ExactlyOnce(w, header, connections);
  }

  // ---------------------------------------------------------------------------
  // What a session loses
  // ---------------------------------------------------------------------------

  function Min(a: int, b: int): int { if a < b then a else b }

  /** No row is inserted behind the cursor of the server that also lies behind `place`, where the client
      will resume: it gets the rows past that place once more. */
  ghost predicate KeptInTime(w: Tables, low: int, place: int, cursor: int, moments: seq<Moment>)
    decreases moments
  {
    moments == [] || !moments[0].connected ||
    var m := moments[0];
    var w1 := CommitAll(w, m.beforeBatch);
    var c1 := CursorAfter(cursor, Fetch(w1, cursor));
    var w2 := CommitAll(w1, m.beforeStatus);
    && NoneLate(w, m.beforeBatch, low, Min(cursor, place))
    && NoneLate(w1, m.beforeStatus, low, Min(c1, place))
    && (if Terminal(w2.status) then NoneLate(w2, m.beforeTrailing, low, Min(c1, place))
        else KeptInTime(w2, low, place, c1, moments[1..]))
  }

  /** Every row of the passed part was there before. */
  lemma {:induction false} NoneLateAdds(w: Tables, writes: seq<Write>, low: int, high: int, e: Event)
    requires Sorted(w.log) && NoneLate(w, writes, low, high)
    requires e in CommitAll(w, writes).log && low < e.number <= high
    ensures e in w.log
    decreases writes
  {
    if writes != [] {
      var next := Commit(w, writes[0]);
      if writes[0].Record? {
        InsertSorted(w.log, writes[0].event);
        InsertMembers(w.log, writes[0].event);
        if Numbered(w.log, writes[0].event.number) {
          InsertDuplicate(w.log, writes[0].event);
        }
      }
      NoneLateAdds(next, writes[1..], low, high, e);
    }
  }

  /** A row the connection passes, up to the place, that was not passed before and is not sent. */
  ghost predicate Missed(w: Tables, s: Served, low: int, place: int, cursor: int, e: Event) {
    && e in s.world.log && low < e.number <= Min(s.cursor, place)
    && !(e in w.log && e.number <= cursor) && e !in EventsOf(s.chunks)
  }

  lemma PageHolds(log: seq<Event>, cursor: int, e: Event)
    requires Sorted(log)
    ensures var page := Page(log, cursor, PAGE_SIZE);
            e in page <==> e in log && cursor < e.number <= CursorAfter(cursor, page)
  {
    PageIsBetween(log, cursor, PAGE_SIZE);
    BetweenMember(log, cursor, CursorAfter(cursor, Page(log, cursor, PAGE_SIZE)), e);
  }

  lemma {:induction false} KeptMissesNone(w: Tables, low: int, place: int, cursor: int, moments: seq<Moment>, e: Event)
    requires Sorted(w.log) && KeptInTime(w, low, place, cursor, moments)
    ensures !Missed(w, Serve(w, cursor, moments), low, place, cursor, e)
    decreases moments
  {
    var s := Serve(w, cursor, moments);
    if moments != [] && moments[0].connected && e in s.world.log && low < e.number <= Min(s.cursor, place) {
      var m := moments[0];
      var w1 := CommitAll(w, m.beforeBatch);
      var batch := Fetch(w1, cursor);
      var c1 := CursorAfter(cursor, batch);
      var w2 := CommitAll(w1, m.beforeStatus);
      CommitAllKeeps(w, m.beforeBatch);
      CommitAllKeeps(w1, m.beforeStatus);
      PageHolds(w1.log, cursor, e);
      if Terminal(w2.status) {
        var w3 := CommitAll(w2, m.beforeTrailing);
        CommitAllKeeps(w2, m.beforeTrailing);
        PageHolds(w3.log, c1, e);
        EventsOfConcat(Frames(batch), Frames(Fetch(w3, c1)));
        if e.number <= c1 {
          NoneLateAdds(w2, m.beforeTrailing, low, Min(c1, place), e);
        }
      } else {
        KeptMissesNone(w2, low, place, c1, moments[1..], e);
        ServedEvents(batch, Serve(w2, c1, moments[1..]));
      }
      if e in w2.log && e.number <= c1 {
        NoneLateAdds(w1, m.beforeStatus, low, Min(c1, place), e);
        if e.number <= cursor {
          NoneLateAdds(w, m.beforeBatch, low, Min(cursor, place), e);
        }
      }
    }
  }

  /** A row that was inserted after the page was read, and lies behind it, is not sent any more. */
  lemma InsertedMissed(w: Tables, w1: Tables, s: Served, batch: seq<Event>, tail: seq<Event>, low: int, place: int,
                       cursor: int, c1: int, e: Event)
    requires EventsOf(s.chunks) == batch + tail && Grows(w.log, w1.log) && c1 <= s.cursor
    requires (forall x :: x in batch ==> x in w1.log) && forall x :: x in tail ==> c1 < x.number
    requires e !in w1.log && e in s.world.log && low < e.number <= Min(c1, place)
    ensures Missed(w, s, low, place, cursor, e)
  {
  }

  lemma MissedLater(w: Tables, w2: Tables, s: Served, rest: Served, batch: seq<Event>, low: int, place: int,
                    cursor: int, c1: int, e: Event)
    requires EventsOf(s.chunks) == batch + EventsOf(rest.chunks) && s.world == rest.world && s.cursor == rest.cursor
    requires Grows(w.log, w2.log) && cursor <= c1 && forall x :: x in batch ==> x in w2.log && x.number <= c1
    requires Missed(w2, rest, low, place, c1, e)
    ensures Missed(w, s, low, place, cursor, e)
  {
  }

  lemma {:induction false} LateMissed(w: Tables, low: int, place: int, cursor: int, moments: seq<Moment>)
    returns (e: Event)
    requires Sorted(w.log) && !KeptInTime(w, low, place, cursor, moments)
    ensures Missed(w, Serve(w, cursor, moments), low, place, cursor, e)
    decreases moments
  {
    var m, s := moments[0], Serve(w, cursor, moments);
    var w1 := CommitAll(w, m.beforeBatch);
    var batch := Fetch(w1, cursor);
    var c1 := CursorAfter(cursor, batch);
    var w2 := CommitAll(w1, m.beforeStatus);
    CommitAllKeeps(w, m.beforeBatch);
    CommitAllKeeps(w1, m.beforeStatus);
    PageOrdered(w1.log, cursor, PAGE_SIZE);
    ServeOrdered(w, cursor, moments);
    var rest, tail := LaterPart(w2, c1, m, moments[1..], batch, s);
    if !NoneLate(w, m.beforeBatch, low, Min(cursor, place)) {
      e := LateWrite(w, m.beforeBatch, low, Min(cursor, place));
    } else if !NoneLate(w1, m.beforeStatus, low, Min(c1, place)) {
      e := LateWrite(w1, m.beforeStatus, low, Min(c1, place));
      InsertedMissed(w, w1, s, batch, tail, low, place, cursor, c1, e);
    } else if Terminal(w2.status) {
      e := LateWrite(w2, m.beforeTrailing, low, Min(c1, place));
      InsertedMissed(w, w1, s, batch, tail, low, place, cursor, c1, e);
    } else {
      e := LateMissed(w2, low, place, c1, moments[1..]);
      MissedLater(w, w2, s, rest, batch, low, place, cursor, c1, e);
    }
  }

  /** What a turn sends after its page lies past the page. */
  lemma LaterPart(w2: Tables, c1: int, m: Moment, later: seq<Moment>, batch: seq<Event>, s: Served)
    returns (rest: Served, tail: seq<Event>)
    requires Sorted(w2.log)
    requires var w3 := CommitAll(w2, m.beforeTrailing);
             var trailing := Fetch(w3, c1);
             s == if Terminal(w2.status) then Served(Frames(batch) + Frames(trailing), CursorAfter(c1, trailing), w3)
                  else PrependTo(Frames(batch) + [KeepAlive], Serve(w2, c1, later))
    ensures EventsOf(s.chunks) == batch + tail && (forall x :: x in tail ==> c1 < x.number)
    ensures c1 <= s.cursor && Grows(w2.log, s.world.log)
    ensures !Terminal(w2.status) ==> rest == Serve(w2, c1, later) && tail == EventsOf(rest.chunks)
    ensures Terminal(w2.status) ==> s.world == CommitAll(w2, m.beforeTrailing)
  {
    rest := s;
    if Terminal(w2.status) {
      var w3 := CommitAll(w2, m.beforeTrailing);
      tail := Fetch(w3, c1);
      CommitAllKeeps(w2, m.beforeTrailing);
      PageOrdered(w3.log, c1, PAGE_SIZE);
      EventsOfConcat(Frames(batch), Frames(tail));
    } else {
      rest := Serve(w2, c1, later);
      tail := EventsOf(rest.chunks);
      ServeOrdered(w2, c1, later);
      ServedEvents(batch, rest);
    }
  }

  /** The events a client hears on a connection. */
  function Heard(w: Tables, header: string, c: Connection): seq<Event> {
    EventsOf(WholeOf(ServedOn(w, header, c).chunks, c.received))
  }

  function HeardOver(w: Tables, header: string, connections: seq<Connection>): seq<Event>
    decreases connections
  {
    if connections == [] then []
    else
      var first := Connect(w, header, connections[0]);
      Heard(w, header, connections[0]) + HeardOver(first.world, first.header, connections[1..])
  }

  /** What is heard of what is sent is everything up to the place where the client will resume. */
  lemma HeardUpToPlace(w: Tables, header: string, c: Connection)
    requires Sorted(w.log)
    ensures var r, s, heard := Connect(w, header, c), ServedOn(w, header, c), Heard(w, header, c);
            var place := ParseCursor(r.header);
            && r.messages == Messages(heard) && place == CursorAfter(ParseCursor(header), heard)
            && Sorted(r.world.log) && Grows(w.log, r.world.log)
            && ParseCursor(header) <= place <= s.cursor && Sorted(heard)
            && (forall e :: e in heard <==> e in EventsOf(s.chunks) && e.number <= place)
            && (forall e :: e in heard ==> e in r.world.log && ParseCursor(header) < e.number)
  {
    var s, heard, cursor := ServedOn(w, header, c), Heard(w, header, c), ParseCursor(header);
    CommitAllKeeps(w, c.before);
    ServeOrdered(CommitAll(w, c.before), cursor, c.moments);
    WholeHeard(s.chunks, c.received, header);
    HeaderAfter(header, heard);
    WholeIsPrefix(s.chunks, c.received);
    PrefixByNumber(EventsOf(s.chunks), heard, cursor);
    assert heard != [] ==> heard[|heard| - 1] in heard;
  }

  lemma WholeIsPrefix(chunks: seq<Chunk>, received: Option<nat>)
    ensures EventsOf(WholeOf(chunks, received)) <= EventsOf(chunks)
  {
    if received.Some? && received.value <= |Render(chunks)| {
      EventsOfPrefix(chunks, WholePieces(Map(Print, chunks), received.value));
    }
  }

  lemma PrefixByNumber(sent: seq<Event>, heard: seq<Event>, cursor: int)
    requires Sorted(sent) && heard <= sent && forall e :: e in sent ==> cursor < e.number
    ensures Sorted(heard) && cursor <= CursorAfter(cursor, heard)
    ensures forall e :: e in heard <==> e in sent && e.number <= CursorAfter(cursor, heard)
  {
    var place := CursorAfter(cursor, heard);
    assert forall i :: 0 <= i < |heard| ==> heard[i] == sent[i] && heard[i] in sent;
    forall e | e in sent ensures e in heard <==> e.number <= place {
      var i :| 0 <= i < |sent| && sent[i] == e;
      SortedAt(sent, i, |heard| - 1);
      SortedAt(sent, |heard| - 1, i);
      assert i < |heard| ==> heard[i] == e;
      if e in heard {
        var j :| 0 <= j < |heard| && heard[j] == e;
        SortedAt(sent, j, |heard| - 1);
      }
    }
  }

  /** No row is inserted, before or during a connection, at or before the place where the client resumes
      after it, unless the server's cursor is still before that row. */
  ghost predicate SessionInTime(w: Tables, low: int, header: string, connections: seq<Connection>)
    decreases connections
  {
    connections == [] ||
    var c := connections[0];
    var first := Connect(w, header, c);
    && NoneLate(w, c.before, low, ParseCursor(header))
    && KeptInTime(CommitAll(w, c.before), low, ParseCursor(first.header), ParseCursor(header), c.moments)
    && SessionInTime(first.world, low, first.header, connections[1..])
  }

  lemma {:induction false} HeardOrdered(w: Tables, header: string, connections: seq<Connection>)
    requires Sorted(w.log)
    ensures var r, heard := Session(w, header, connections), HeardOver(w, header, connections);
            && r.messages == Messages(heard) && Sorted(r.world.log) && Grows(w.log, r.world.log)
            && ParseCursor(header) <= ParseCursor(r.header) && Sorted(heard)
            && forall e :: e in heard ==> e in r.world.log && ParseCursor(header) < e.number <= ParseCursor(r.header)
    decreases connections
  {
    if connections != [] {
      var first := Connect(w, header, connections[0]);
      var heard, later := Heard(w, header, connections[0]), HeardOver(first.world, first.header, connections[1..]);
      HeardUpToPlace(w, header, connections[0]);
      HeardOrdered(first.world, first.header, connections[1..]);
      SortedConcat(heard, later, ParseCursor(first.header));
      MessagesConcat(heard, later);
    }
  }

  lemma ConnectionKeeps(w: Tables, low: int, header: string, c: Connection, e: Event)
    requires Sorted(w.log) && NoneLate(w, c.before, low, ParseCursor(header))
    requires KeptInTime(CommitAll(w, c.before), low, ParseCursor(Connect(w, header, c).header), ParseCursor(header),
                        c.moments)
    requires e in Connect(w, header, c).world.log && low < e.number <= ParseCursor(Connect(w, header, c).header)
    ensures (e in w.log && e.number <= ParseCursor(header)) || e in Heard(w, header, c)
  {
    var w0, cursor := CommitAll(w, c.before), ParseCursor(header);
    HeardUpToPlace(w, header, c);
    CommitAllKeeps(w, c.before);
    KeptMissesNone(w0, low, ParseCursor(Connect(w, header, c).header), cursor, c.moments, e);
    if e in w0.log && e.number <= cursor {
      NoneLateAdds(w, c.before, low, cursor, e);
    }
  }

  /** Of the rows passed in a session, one that was not passed before it is heard. */
  lemma {:induction false} InTimeIsHeard(w: Tables, low: int, header: string, connections: seq<Connection>, e: Event)
    requires Sorted(w.log) && SessionInTime(w, low, header, connections)
    requires var r := Session(w, header, connections); e in r.world.log && low < e.number <= ParseCursor(r.header)
    ensures (e in w.log && e.number <= ParseCursor(header)) || e in HeardOver(w, header, connections)
    decreases connections
  {
    if connections != [] {
      var first := Connect(w, header, connections[0]);
      CommitAllKeeps(w, connections[0].before);
      ServeOrdered(CommitAll(w, connections[0].before), ParseCursor(header), connections[0].moments);
      InTimeIsHeard(first.world, low, first.header, connections[1..], e);
      if e in first.world.log && e.number <= ParseCursor(first.header) {
        ConnectionKeeps(w, low, header, connections[0], e);
      }
    }
  }

  lemma {:induction false} LateIsLost(w: Tables, low: int, header: string, connections: seq<Connection>)
    returns (e: Event)
    requires Sorted(w.log) && low <= ParseCursor(header) && !SessionInTime(w, low, header, connections)
    ensures var r := Session(w, header, connections);
            && e in r.world.log && low < e.number <= ParseCursor(r.header)
            && !(e in w.log && e.number <= ParseCursor(header)) && e !in HeardOver(w, header, connections)
    decreases connections
  {
    var c, cursor := connections[0], ParseCursor(header);
    var first, w0 := Connect(w, header, c), CommitAll(w, c.before);
    var place := ParseCursor(first.header);
    HeardUpToPlace(w, header, c);
    HeardOrdered(first.world, first.header, connections[1..]);
    CommitAllKeeps(w, c.before);
    ServeOrdered(w0, cursor, c.moments);
    if !NoneLate(w, c.before, low, cursor) {
      e := LateWrite(w, c.before, low, cursor);
    } else if !KeptInTime(w0, low, place, cursor, c.moments) {
      e := LateMissed(w0, low, place, cursor, c.moments);
    } else {
      e := LateIsLost(first.world, low, first.header, connections[1..]);
    }
  }

  lemma EmptyHasNone(s: seq<Event>)
    ensures s == [] <==> forall e :: e !in s
  {
    if s != [] {
      assert s[0] in s;
    }
  }

  lemma {:induction false} SortedSame(a: seq<Event>, b: seq<Event>)
    requires Sorted(a) && Sorted(b) && forall e :: e in a <==> e in b
    ensures a == b
    decreases |a|
  {
    EmptyHasNone(b);
    if a != [] {
      assert a[0] in b && b[0] in a;
      var i :| 0 <= i < |a| && a[i] == b[0];
      var j :| 0 <= j < |b| && b[j] == a[0];
      SortedAt(a, 0, i);
      SortedAt(b, 0, j);
      forall e ensures e in a[1..] <==> e in b[1..] {
        TailMember(a, e);
        TailMember(b, e);
      }
      SortedSame(a[1..], b[1..]);
      assert a == [a[0]] + a[1..] && b == [b[0]] + b[1..];
    }
  }

  lemma TailMember(s: seq<Event>, e: Event)
    requires s != [] && Sorted(s)
    ensures e in s[1..] <==> e in s && e != s[0]
  {
    if e in s[1..] {
      var i :| 0 <= i < |s[1..]| && s[1..][i] == e;
      SortedAt(s, 0, i + 1);
    }
  }

  /** Equal messages have equal numbers. */
  lemma {:induction false} MessagesNumbers(a: seq<Event>, b: seq<Event>, i: nat)
    requires Messages(a) == Messages(b) && i < |a|
    ensures i < |b| && a[i].number == b[i].number
  {
    assert b != [] && Printed(a[0]) == Messages(a)[0] && Printed(b[0]) == Messages(b)[0];
    DecimalInjective(a[0].number, b[0].number);
    assert Messages(a)[1..] == Messages(a[1..]) && Messages(b)[1..] == Messages(b[1..]);
    if i > 0 {
      MessagesNumbers(a[1..], b[1..], i - 1);
    }
  }

  lemma SameNumberSameRow(log: seq<Event>, x: Event, y: Event)
    requires Sorted(log) && x in log && y in log && x.number == y.number
    ensures x == y
  {
    var i :| 0 <= i < |log| && log[i] == x;
    var j :| 0 <= j < |log| && log[j] == y;
    SortedAt(log, i, j);
    SortedAt(log, j, i);
  }

  lemma SameMessagesSameRows(log: seq<Event>, a: seq<Event>, b: seq<Event>)
    requires Sorted(log) && (forall e :: e in a ==> e in log) && forall e :: e in b ==> e in log
    ensures Messages(a) == Messages(b) <==> a == b
  {
    if Messages(a) == Messages(b) {
      forall i | 0 <= i < |a| ensures a[i] == b[i] {
        MessagesNumbers(a, b, i);
        SameNumberSameRow(log, a[i], b[i]);
      }
    }
  }

  /** Over any interleaving of any writers and any number of connections cut anywhere, the client hears
      exactly the rows between its first and its latest cursor if and only if no row is inserted behind
      both the server's cursor and the place where the client resumes. */
  lemma HeardExactlyWhenInTime(w: Tables, header: string, connections: seq<Connection>)
    requires Sorted(w.log)
    ensures var r := Session(w, header, connections);
            r.messages == Messages(Between(r.world.log, ParseCursor(header), ParseCursor(r.header)))
            <==> SessionInTime(w, ParseCursor(header), header, connections)
  {
    var r, heard, low := Session(w, header, connections), HeardOver(w, header, connections), ParseCursor(header);
    var passed := Between(r.world.log, low, ParseCursor(r.header));
    HeardOrdered(w, header, connections);
    BetweenIsPrefix(r.world.log, low, ParseCursor(r.header));
    if SessionInTime(w, low, header, connections) {
      forall e ensures e in heard <==> e in passed {
        BetweenMember(r.world.log, low, ParseCursor(r.header), e);
        if e in passed {
          InTimeIsHeard(w, low, header, connections, e);
        }
      }
      SortedSame(heard, passed);
    } else {
      var e := LateIsLost(w, low, header, connections);
      BetweenMember(r.world.log, low, ParseCursor(r.header), e);
      forall x | x in passed ensures x in r.world.log {
        BetweenMember(r.world.log, low, ParseCursor(r.header), x);
      }
      SameMessagesSameRows(r.world.log, heard, passed);
    }
  }

  // ---------------------------------------------------------------------------
  // What a client after the standard hears again
  // ---------------------------------------------------------------------------

  function StandardOver(w: Tables, header: string, connections: seq<Connection>): seq<Event>
    decreases connections
  {
    if connections == [] then []
    else
      var first := StandardConnect(w, header, connections[0]);
      Heard(w, header, connections[0]) + StandardOver(first.world, first.header, connections[1..])
  }

  /** The place after a connection: the last event heard so far, in the beginning `place`. */
  function PlaceAfter(w: Tables, header: string, c: Connection, place: int): int {
    CursorAfter(place, Heard(w, header, c))
  }

  /** No connection that hears anything resumes with a row between its cursor and the place. */
  ghost predicate NeverGoesBack(w: Tables, header: string, place: int, connections: seq<Connection>)
    decreases connections
  {
    connections == [] ||
    var c := connections[0];
    var first := StandardConnect(w, header, c);
    && (Heard(w, header, c) != [] ==> Between(first.world.log, ParseCursor(header), place) == [])
    && NeverGoesBack(first.world, first.header, PlaceAfter(w, header, c, place), connections[1..])
  }

  function LastPlace(w: Tables, header: string, place: int, connections: seq<Connection>): int
    decreases connections
  {
    if connections == [] then place
    else
      var first := StandardConnect(w, header, connections[0]);
      LastPlace(first.world, first.header, PlaceAfter(w, header, connections[0], place), connections[1..])
  }

  lemma {:induction false} ServedWorld(w: Tables, cursor: int, other: int, moments: seq<Moment>)
    ensures Serve(w, cursor, moments).world == Serve(w, other, moments).world
    decreases moments
  {
    if moments != [] && moments[0].connected {
      var w1 := CommitAll(w, moments[0].beforeBatch);
      var w2 := CommitAll(w1, moments[0].beforeStatus);
      ServedWorld(w2, CursorAfter(cursor, Fetch(w1, cursor)), CursorAfter(other, Fetch(w1, other)), moments[1..]);
    }
  }

  /** Whether writers append in order does not depend on where clients resume. */
  lemma {:induction false} OrderOfAnyClient(w: Tables, header: string, other: string, connections: seq<Connection>)
    requires SessionInOrder(w, header, connections)
    ensures SessionInOrder(w, other, connections)
    decreases connections
  {
    if connections != [] {
      var c := connections[0];
      ServedWorld(CommitAll(w, c.before), ParseCursor(header), ParseCursor(other), c.moments);
      OrderOfAnyClient(Connect(w, header, c).world, Connect(w, header, c).header, Connect(w, other, c).header,
                       connections[1..]);
    }
  }

  /** With writers in order, the rows up to a place that was reached stay. */
  lemma OrderlyKeeps(w: Tables, low: int, place: int, header: string, c: Connection)
    requires Sorted(w.log) && Orderly(w, c) && low <= place && Reached(w.log, low, place)
    ensures var log := Connect(w, header, c).world.log;
            && Sorted(log) && Reached(log, low, place) && Between(log, low, place) == Between(w.log, low, place)
  {
    AppendsKeepBetween(w, c.before, low, place);
    OrderKeepsBetween(CommitAll(w, c.before), low, place, ParseCursor(header), c.moments);
  }

  /** With writers in order, what a connection hears is the rows after its cursor up to the last one heard. */
  lemma OrderlyHears(w: Tables, header: string, c: Connection)
    requires Sorted(w.log) && Orderly(w, c)
    ensures var r, heard, cursor := Connect(w, header, c), Heard(w, header, c), ParseCursor(header);
            var next := CursorAfter(cursor, heard);
            && cursor <= next && heard == Between(r.world.log, cursor, next) && Reached(r.world.log, cursor, next)
  {
    var low, next := ParseCursor(header), ParseCursor(Connect(w, header, c).header);
    ConnectFollowsLog(w, low, header, c);
    HeardUpToPlace(w, header, c);
    CommitAllKeeps(w, c.before);
    AppendsKeepBetween(w, c.before, low, low);
    InOrderIsInTime(CommitAll(w, c.before), low, low, c.moments);
    GapFreeExactlyWhenInTime(CommitAll(w, c.before), low, c.moments);
    var log, heard, s := Connect(w, header, c).world.log, Heard(w, header, c), ServedOn(w, header, c);
    BetweenIsPrefix(log, low, next);
    forall e ensures e in heard <==> e in Between(log, low, next) {
      BetweenMember(log, low, next, e);
      BetweenMember(log, low, s.cursor, e);
    }
    SortedSame(heard, Between(log, low, next));
  }

  lemma {:induction false} OrderKeepsBetween(w: Tables, low: int, place: int, cursor: int, moments: seq<Moment>)
    requires Sorted(w.log) && InOrder(w, moments) && low <= place && Reached(w.log, low, place)
    ensures var log := Serve(w, cursor, moments).world.log;
            Sorted(log) && Reached(log, low, place) && Between(log, low, place) == Between(w.log, low, place)
    decreases moments
  {
    if moments != [] && moments[0].connected {
      var m := moments[0];
      var w1 := CommitAll(w, m.beforeBatch);
      var w2 := CommitAll(w1, m.beforeStatus);
      AppendsKeepBetween(w, m.beforeBatch, low, place);
      AppendsKeepBetween(w1, m.beforeStatus, low, place);
      if Terminal(w2.status) {
        AppendsKeepBetween(w2, m.beforeTrailing, low, place);
      } else {
        OrderKeepsBetween(w2, low, place, CursorAfter(cursor, Fetch(w1, cursor)), moments[1..]);
      }
    }
  }

  lemma HeardJoins(log: seq<Event>, low: int, place: int, cursor: int, next: int)
    requires Sorted(log) && low <= place && cursor < next && Numbered(log, next)
    requires Between(log, cursor, place) == [] && cursor <= place
    ensures place < next && Between(log, low, place) + Between(log, cursor, next) == Between(log, low, next)
  {
    var i :| 0 <= i < |log| && log[i].number == next;
    BetweenMember(log, cursor, place, log[i]);
    JoinAt(log, low, place, cursor, next);
  }

  lemma JoinAt(log: seq<Event>, low: int, place: int, cursor: int, next: int)
    requires Sorted(log) && low <= place < next && cursor <= place && Between(log, cursor, place) == []
    ensures Between(log, low, place) + Between(log, cursor, next) == Between(log, low, next)
  {
    PositionMonotone(log, cursor, place);
    PositionMonotone(log, place, next);
    PositionMonotone(log, low, place);
    var l, p, n := Position(log, low), Position(log, place), Position(log, next);
    assert Position(log, cursor) == p;
    SlicesJoin(log, l, p, n);
  }

  /** What is heard after going back repeats an earlier event or begins before the first cursor. */
  lemma GoingBackShows(log: seq<Event>, low: int, place: int, all: seq<Event>, total: seq<Event>)
    requires Sorted(log) && low <= place && Reached(log, low, place) && all == Between(log, low, place)
    requires |all| < |total| && all <= total && total[|all|].number <= place
    ensures !(Sorted(total) && forall e :: e in total ==> low < e.number)
  {
    LastBetween(log, low, place);
    assert total[|all|] in total;
    if all != [] {
      assert total[|all| - 1] == all[|all| - 1];
    }
  }

  lemma GoingBackFails(log: seq<Event>, low: int, place: int, all: seq<Event>, heard: seq<Event>, rest: seq<Event>,
                       final: seq<Event>, last: int)
    requires Sorted(log) && low <= place && Reached(log, low, place) && all == Between(log, low, place)
    requires heard != [] && heard[0].number <= place && Sorted(final)
    ensures all + (heard + rest) != Between(final, low, last)
  {
    GoingBackShows(log, low, place, all, all + (heard + rest));
    BetweenOrdered(final, low, last);
  }

  lemma SameStart(log: seq<Event>, cursor: int, place: int, next: int)
    requires Sorted(log) && cursor <= next && Between(log, cursor, place) != [] && Between(log, cursor, next) != []
    ensures Between(log, cursor, next)[0].number <= place
  {
    PositionMonotone(log, cursor, next);
    var first := Between(log, cursor, place)[0];
    BetweenMember(log, cursor, place, first);
    assert Between(log, cursor, next)[0] == log[Position(log, cursor)];
    if place < cursor {
      PositionMonotone(log, place, cursor);
    }
    assert first == log[Position(log, cursor)];
  }

  lemma BetweenOrdered(log: seq<Event>, low: int, high: int)
    requires Sorted(log)
    ensures Sorted(Between(log, low, high)) && forall e :: e in Between(log, low, high) ==> low < e.number
  {
    if low <= high {
      BetweenIsPrefix(log, low, high);
    } else {
      PositionMonotone(log, high, low);
    }
    forall e | e in Between(log, low, high) ensures low < e.number {
      BetweenMember(log, low, high, e);
    }
  }

  /** Where a client after the standard resumes: at the last event it heard, or not past the place. */
  lemma StandardResumes(w: Tables, header: string, c: Connection, place: int)
    requires Sorted(w.log) && 0 <= place && ParseCursor(header) <= place
    ensures var first, heard := StandardConnect(w, header, c), Heard(w, header, c);
            && first.world == Connect(w, header, c).world
            && (heard == [] ==> ParseCursor(first.header) <= place)
            && (heard != [] ==> ParseCursor(first.header) == heard[|heard| - 1].number)
  {
    StandardConnectExactly(w, header, c);
    HeardUpToPlace(w, header, c);
  }

  /** What a connection of an orderly session leaves behind. */
  ghost predicate Stepped(w: Tables, low: int, place: int, cursor: int, heard: seq<Event>, log: seq<Event>) {
    var next := CursorAfter(cursor, heard);
    && Sorted(log) && Reached(log, low, place) && Between(log, low, place) == Between(w.log, low, place)
    && cursor <= next && heard == Between(log, cursor, next)
    && (heard != [] ==> cursor < next && Numbered(log, next))
  }

  lemma StandardStep(w: Tables, low: int, place: int, header: string, c: Connection)
    requires Sorted(w.log) && Orderly(w, c)
    requires 0 <= low <= place && Reached(w.log, low, place) && ParseCursor(header) <= place
    ensures var heard, first := Heard(w, header, c), StandardConnect(w, header, c);
            && Stepped(w, low, place, ParseCursor(header), heard, first.world.log)
            && ParseCursor(first.header) <= CursorAfter(place, heard)
            && first.world == Connect(w, header, c).world
  {
    StandardResumes(w, header, c, place);
    OrderlyKeeps(w, low, place, header, c);
    OrderlyHears(w, header, c);
    HeardUpToPlace(w, header, c);
    var heard := Heard(w, header, c);
    assert heard != [] ==> heard[|heard| - 1] in heard;
  }

  /** Hearing something goes on past the place, or goes back. */
  lemma JoinsOrRepeats(w: Tables, low: int, place: int, cursor: int, heard: seq<Event>, log: seq<Event>,
                       rest: seq<Event>, final: seq<Event>, last: int)
    requires Stepped(w, low, place, cursor, heard, log) && heard != [] && low <= place && cursor <= place
    requires Sorted(final)
    ensures var all, next := Between(w.log, low, place), CursorAfter(cursor, heard);
            if Between(log, cursor, place) == [] then
              place < next && Reached(log, low, next) && all + (heard + rest) == Between(log, low, next) + rest
            else all + (heard + rest) != Between(final, low, last)
  {
    var all, next := Between(log, low, place), CursorAfter(cursor, heard);
    if Between(log, cursor, place) == [] {
      HeardJoins(log, low, place, cursor, next);
      Associative(all, heard, rest);
    } else {
      SameStart(log, cursor, place, next);
      GoingBackFails(log, low, place, all, heard, rest, final, last);
    }
  }

  /** With writers in order, a client after the standard hears the rows between its first cursor and the
      last event it heard, once and in order, exactly when no connection that hears anything resumes with
      a row between its cursor and the place. */
  lemma {:induction false} StandardFollowsLog(w: Tables, low: int, place: int, header: string,
                                              connections: seq<Connection>, final: seq<Event>, last: int)
    requires Sorted(w.log) && SessionInOrder(w, header, connections)
    requires 0 <= low <= place && Reached(w.log, low, place) && ParseCursor(header) <= place
    requires final == StandardSession(w, header, connections).world.log && Sorted(final)
    requires last == LastPlace(w, header, place, connections)
    ensures Between(w.log, low, place) + StandardOver(w, header, connections) == Between(final, low, last)
            <==> NeverGoesBack(w, header, place, connections)
    decreases connections
  {
    var all := Between(w.log, low, place);
    if connections == [] {
      assert all + [] == all;
    } else {
      var c := connections[0];
      var heard, first := Heard(w, header, c), StandardConnect(w, header, c);
      var rest := StandardOver(first.world, first.header, connections[1..]);
      StandardStep(w, low, place, header, c);
      OrderOfAnyClient(first.world, Connect(w, header, c).header, first.header, connections[1..]);
      if heard == [] {
        StandardFollowsLog(first.world, low, place, first.header, connections[1..], final, last);
        assert heard + rest == rest;
      } else {
        JoinsOrRepeats(w, low, place, ParseCursor(header), heard, first.world.log, rest, final, last);
        if Between(first.world.log, ParseCursor(header), place) == [] {
          StandardFollowsLog(first.world, low, CursorAfter(place, heard), first.header, connections[1..], final, last);
        }
      }
    }
  }

  lemma {:induction false} StandardHeard(w: Tables, header: string, connections: seq<Connection>)
    requires Sorted(w.log)
    ensures var r, heard := StandardSession(w, header, connections), StandardOver(w, header, connections);
            && r.messages == Messages(heard) && Sorted(r.world.log) && Grows(w.log, r.world.log)
            && forall e :: e in heard ==> e in r.world.log
    decreases connections
  {
    if connections != [] {
      var first := StandardConnect(w, header, connections[0]);
      HeardUpToPlace(w, header, connections[0]);
      StandardConnectExactly(w, header, connections[0]);
      StandardHeard(first.world, first.header, connections[1..]);
      MessagesConcat(Heard(w, header, connections[0]), StandardOver(first.world, first.header, connections[1..]));
    }
  }

  /** With writers in order and a first cursor that is not negative, a client after the standard hears the
      rows between its first cursor and the last event it heard, once and in order, exactly when no
      connection that hears anything resumes with a row between its cursor and the last event heard. */
  lemma StandardHearsOnceExactly(w: Tables, header: string, connections: seq<Connection>)
    requires Sorted(w.log) && SessionInOrder(w, header, connections) && 0 <= ParseCursor(header)
    ensures var r, low := StandardSession(w, header, connections), ParseCursor(header);
            r.messages == Messages(Between(r.world.log, low, LastPlace(w, header, low, connections)))
            <==> NeverGoesBack(w, header, low, connections)
  {
    var r, heard := StandardSession(w, header, connections), StandardOver(w, header, connections);
    var low := ParseCursor(header);
    var last := LastPlace(w, header, low, connections);
    var passed := Between(r.world.log, low, last);
    StandardHeard(w, header, connections);
    StandardFollowsLog(w, low, low, header, connections, r.world.log, last);
    assert Between(w.log, low, low) == [] && [] + heard == heard;
    forall e | e in passed ensures e in r.world.log {
      BetweenMember(r.world.log, low, last, e);
    }
    SameMessagesSameRows(r.world.log, heard, passed);
  }

  // ---------------------------------------------------------------------------
  // Draining a finished investigation
  // ---------------------------------------------------------------------------

  /** One turn of the loop with the client present and nobody writing. */
  ghost predicate Quiet(m: Moment) {
    m.connected && m.beforeBatch == [] && m.beforeStatus == [] && m.beforeTrailing == []
  }

  /** An uncut connection that begins with a quiet turn, after a quiet time. */
  ghost predicate QuietConnection(c: Connection) {
    c.before == [] && c.moments != [] && Quiet(c.moments[0]) && c.received.None?
  }

  ghost predicate AllQuiet(connections: seq<Connection>) {
    connections == [] || (QuietConnection(connections[0]) && AllQuiet(connections[1..]))
  }

  lemma QuietServe(w: Tables, cursor: int, moments: seq<Moment>)
    requires Sorted(w.log) && Terminal(w.status) && moments != [] && Quiet(moments[0])
    ensures var s := Serve(w, cursor, moments);
            && EventsOf(s.chunks) == Page(w.log, cursor, 100)
            && s.world == w
  {
    var batch := Fetch(w, cursor);
    PagesCompose(w.log, cursor, PAGE_SIZE, PAGE_SIZE);
    EventsOfConcat(Frames(batch), Frames(Fetch(w, CursorAfter(cursor, batch))));
  }

  lemma QuietConnect(w: Tables, header: string, c: Connection)
    requires Sorted(w.log) && Terminal(w.status) && QuietConnection(c)
    ensures var page := Page(w.log, ParseCursor(header), 100);
            var r := Connect(w, header, c);
            && r.world == w && r.messages == Messages(page)
            && ParseCursor(r.header) == CursorAfter(ParseCursor(header), page)
  {
    var s := ServedOn(w, header, c);
    QuietServe(w, ParseCursor(header), c.moments);
    var k := HeardIsPrefix(s.chunks, c.received, header);
    var page := EventsOf(s.chunks);
    assert page[..k] == page;
    HeaderAfter(header, page);
  }

  /** Each uncut connection to a finished investigation delivers the next 100 unseen events. */
  lemma {:induction false} DrainSession(w: Tables, header: string, connections: seq<Connection>)
    requires Sorted(w.log) && Terminal(w.status)
    requires AllQuiet(connections)
    ensures Session(w, header, connections).messages
         == Messages(Page(w.log, ParseCursor(header), 100 * |connections|))
    decreases connections
  {
    if connections == [] {
      assert Page(w.log, ParseCursor(header), 0) == [];
    } else {
      var next := QuietStep(w, header, connections);
      DrainSession(w, next, connections[1..]);
      var tail, total := Session(w, next, connections[1..]).messages, Session(w, header, connections).messages;
      var from, to: int := ParseCursor(header), ParseCursor(next);
      var more: nat := 100 * |connections[1..]|;
      JoinPages(w.log, from, to, more, tail, total);
      assert 100 * |connections| == 100 + more;
    }
  }

  lemma JoinPages(log: seq<Event>, cursor: int, next: int, more: nat, tail: seq<Message>, total: seq<Message>)
    requires Sorted(log) && next == CursorAfter(cursor, Page(log, cursor, 100))
    requires tail == Messages(Page(log, next, more))
    requires total == Messages(Page(log, cursor, 100)) + tail
    ensures total == Messages(Page(log, cursor, 100 + more))
  {
    PagesCompose(log, cursor, 100, more);
    MessagesConcat(Page(log, cursor, 100), Page(log, next, more));
  }

  lemma QuietStep(w: Tables, header: string, connections: seq<Connection>) returns (next: string)
    requires Sorted(w.log) && Terminal(w.status)
    requires connections != [] && QuietConnection(connections[0])
    ensures var page := Page(w.log, ParseCursor(header), 100);
            && ParseCursor(next) == CursorAfter(ParseCursor(header), page)
            && Session(w, header, connections).messages
               == Messages(page) + Session(w, next, connections[1..]).messages
  {
    QuietConnect(w, header, connections[0]);
    next := Connect(w, header, connections[0]).header;
  }

  /** With `n` unseen events, `k` connections deliver the first `min(n, 100 k)`, so all of them
      exactly when `k` is at least `n / 100` rounded up. */
  lemma DrainBound(w: Tables, header: string, connections: seq<Connection>)
    requires Sorted(w.log) && Terminal(w.status)
    requires AllQuiet(connections)
    ensures var unseen := After(w.log, ParseCursor(header));
            var n, k := |unseen|, |connections|;
            var heard := Session(w, header, connections).messages;
            && heard == Messages(unseen[..if n <= 100 * k then n else 100 * k])
            && (heard == Messages(unseen) <==> (n + 99) / 100 <= k)
  {
    DrainSession(w, header, connections);
    PageOfUnseen(w.log, ParseCursor(header), 100 * |connections|);
  }

  lemma PageOfUnseen(log: seq<Event>, cursor: int, limit: nat)
    ensures var unseen := After(log, cursor);
            && Page(log, cursor, limit) == unseen[..if |unseen| <= limit then |unseen| else limit]
            && (|unseen| <= limit ==> Page(log, cursor, limit) == unseen)
  {
  }

  /** When the status read finds a terminal status, the trailing read leaves nothing behind exactly
      when at most one page had been committed past the batch by then. */
  lemma TrailingFlush(w: Tables, cursor: int, m: Moment, later: seq<Moment>)
    requires Sorted(w.log) && m.connected
    requires Terminal(CommitAll(CommitAll(w, m.beforeBatch), m.beforeStatus).status)
    ensures var w1 := CommitAll(w, m.beforeBatch);
            var s := Serve(w, cursor, [m] + later);
            After(s.world.log, s.cursor) == []
            <==> |After(s.world.log, CursorAfter(cursor, Fetch(w1, cursor)))| <= PAGE_SIZE
  {
    var w1 := CommitAll(w, m.beforeBatch);
    var c1 := CursorAfter(cursor, Fetch(w1, cursor));
    var w2 := CommitAll(w1, m.beforeStatus);
    var w3 := CommitAll(w2, m.beforeTrailing);
    CommitAllKeeps(w, m.beforeBatch);
    CommitAllKeeps(w1, m.beforeStatus);
    CommitAllKeeps(w2, m.beforeTrailing);
    PageLeaves(w3.log, c1, PAGE_SIZE);
  }

  // ---------------------------------------------------------------------------
  // The terminal reader of the command line
  // ---------------------------------------------------------------------------

  datatype Tailed = Tailed(printed: seq<Event>, cursor: int, world: Tables)

  /** `_stream_events`: the same loop without a trailing read. */
  function Tail(w: Tables, cursor: int, moments: seq<Moment>): Tailed
    decreases moments
  {
    if moments == [] then Tailed([], cursor, w)
    else
      var w1 := CommitAll(w, moments[0].beforeBatch);
      var batch := Fetch(w1, cursor);
      var c1 := CursorAfter(cursor, batch);
      var w2 := CommitAll(w1, moments[0].beforeStatus);
      if Terminal(w2.status) then Tailed(batch, c1, w2)
      else
        var rest := Tail(w2, c1, moments[1..]);
        rest.(printed := batch + rest.printed)
  }

  method PrintAll(events: seq<Event>, cursor: int, before: seq<Event>) returns (current: int, printed: seq<Event>)
    ensures current == CursorAfter(cursor, events) && printed == before + events
  {
    current, printed := cursor, before;
    for i := 0 to |events|
      invariant current == CursorAfter(cursor, events[..i]) && printed == before + events[..i]
    {
      current := events[i].number;
      printed := printed + [events[i]];
      assert events[..i + 1] == events[..i] + [events[i]];
    }
    assert events[..|events|] == events;
  }

  method StreamEvents(store: InvestigationStore, afterSeq: int, moments: seq<Moment>) returns (printed: seq<Event>)
    modifies store
    ensures printed == Tail(old(store.Contents()), afterSeq, moments).printed
    ensures store.Contents() == Tail(old(store.Contents()), afterSeq, moments).world
  {
    var current := afterSeq;
    printed := [];
    ghost var whole := Tail(store.Contents(), afterSeq, moments);
    var i := 0;
    while i < |moments|
      invariant i <= |moments|
      invariant var rest := Tail(store.Contents(), current, moments[i..]);
                rest.(printed := printed + rest.printed) == whole
    {
      assert moments[i..][0] == moments[i] && moments[i..][1..] == moments[i + 1..];
      store.Suspend(moments[i].beforeBatch);
      var events := Page(store.log, current, PAGE_SIZE);
      ghost var sent := printed;
      current, printed := PrintAll(events, current, printed);
      store.Suspend(moments[i].beforeStatus);
      if Terminal(store.status) {
        return;
      }
      Associative(sent, events, Tail(store.Contents(), current, moments[i + 1..]).printed);
      i := i + 1;
    }
  }

  /** Attached to a finished investigation, the command line prints the first 50 unseen events and
      stops: everything exactly when there are at most 50. */
  lemma TailPrintsOnePage(w: Tables, cursor: int, moments: seq<Moment>)
    requires Sorted(w.log) && Terminal(w.status) && moments != [] && Quiet(moments[0])
    ensures var unseen := After(w.log, cursor);
            var n := |unseen|;
            var printed := Tail(w, cursor, moments).printed;
            && printed == unseen[..if n <= 50 then n else 50]
            && (printed == unseen <==> n <= 50)
  {
    PageOfUnseen(w.log, cursor, PAGE_SIZE);
  }
}
