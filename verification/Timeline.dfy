/** The live event timeline: a filtered view of a growing log, kept up to date event by event, with a
    pause that freezes the view while the run goes on. */
module Timeline {
  import opened Wrappers
  import opened PythonText
  import opened Sequences
  import opened EventFilter

  // ---------------------------------------------------------------------------
  // Rows and their keys
  // ---------------------------------------------------------------------------

  function Key(runId: string, number: int): string {
    runId + ":" + Decimal(number)
  }

  datatype Row = Row(key: string, display: Display)

  function RowOf(e: SimEvent): Row
    requires e.display.Some?
  {
    Row(Key(e.runId, e.display.value.number), e.display.value)
  }

  /** What follows the last colon. */
  function AfterColon(s: string): string {
    if s == "" || s[|s| - 1] == ':' then "" else AfterColon(s[..|s| - 1]) + [s[|s| - 1]]
  }

  lemma {:induction false} AfterColonOfKey(runId: string, tail: string)
    requires ':' !in tail
    ensures AfterColon(runId + ":" + tail) == tail
  {
    var s := runId + ":" + tail;
    if tail != "" {
      var last := |tail| - 1;
      assert s[..|s| - 1] == runId + ":" + tail[..last] && s[|s| - 1] == tail[last];
      AfterColonOfKey(runId, tail[..last]);
      assert tail == tail[..last] + [tail[last]];
    }
  }

  /** The printed key determines run and number, even when the run id contains colons. */
  lemma KeyInjective(r1: string, n1: int, r2: string, n2: int)
    requires Key(r1, n1) == Key(r2, n2)
    ensures r1 == r2 && n1 == n2
  {
    assert ':' !in Decimal(n1) && ':' !in Decimal(n2);
    AfterColonOfKey(r1, Decimal(n1));
    AfterColonOfKey(r2, Decimal(n2));
    DecimalInjective(n1, n2);
    assert r1 == Key(r1, n1)[..|r1|] && r2 == Key(r2, n2)[..|r2|];
  }

  // ---------------------------------------------------------------------------
  // What events the factory builds
  // ---------------------------------------------------------------------------

  /** Both views of an event carry the same number. */
  predicate Built(e: SimEvent) {
    e.display.Some? ==> e.display.value.number == e.number
  }

  function Id(e: SimEvent): (string, int) {
    (e.runId, e.number)
  }

  predicate SameId(a: SimEvent, b: SimEvent) {
    Id(a) == Id(b)
  }

  ghost predicate NewTo(log: seq<SimEvent>, e: SimEvent) {
    Built(e) && forall i {:trigger SameId(log[i], e)} :: 0 <= i < |log| ==> !SameId(log[i], e)
  }

  /** A log of built events with distinct ids. */
  ghost predicate Distinct(log: seq<SimEvent>) {
    && (forall i :: 0 <= i < |log| ==> Built(log[i]))
    && (forall i, j {:trigger SameId(log[i], log[j])} :: 0 <= i < j < |log| ==> !SameId(log[i], log[j]))
  }

  /** `EventFactory`: numbers the events of one run from a counter. */
  class EventFactory {
    const runId: string
    var next: int
    ghost var log: seq<SimEvent>

    ghost predicate Valid()
      reads this
    {
      Distinct(log) && forall i :: 0 <= i < |log| ==> log[i].runId == runId && log[i].number < next
    }

    constructor (runId: string)
      ensures Valid() && log == []
    {
      this.runId, next, log := runId, 1, [];
    }

    /** Every event is new to all events built before it. */
    method Build(kind: Kind, source: Source, text: string, detail: seq<string>) returns (e: SimEvent)
      requires Valid()
      modifies this
      ensures Valid() && NewTo(old(log), e) && log == old(log) + [e]
      ensures e == SimEvent(runId, old(next), Some(Display(kind, source, old(next), text, detail)))
    {
      e := SimEvent(runId, next, Some(Display(kind, source, next, text, detail)));
      next := next + 1;
      log := log + [e];
    }
  }

  // ---------------------------------------------------------------------------
  // The workspace in the abstract
  // ---------------------------------------------------------------------------

  /** `pausedAt` is how many events had arrived when the view was paused; `edits` are the changes of
      the search field that are still queued for the handler. */
  datatype Workspace = Workspace(setup: bool, log: seq<SimEvent>, pausedAt: Option<nat>, category: Category,
                                 input: string, edits: seq<string>, failures: nat)

  datatype Step =
    | Receive(event: SimEvent)
    | Edit(text: string)
    | DeliverEdit
    | Choose(category: Category)
    | ClearFilter
    | TogglePause
    | Launch
    | RunFailed

  function Next(w: Workspace, step: Step): Workspace {
    match step
    case Receive(e) => w.(log := w.log + [e])
    case Edit(text) => if text == w.input then w else w.(input := text, edits := w.edits + [text])
    case DeliverEdit => if w.edits == [] then w else w.(edits := w.edits[1..])
    case Choose(c) => if w.setup then w else w.(category := c)
    case ClearFilter =>
      if w.setup then w
      else w.(category := All, input := "", edits := if w.input == "" then w.edits else w.edits + [""])
    case TogglePause =>
      if w.setup then w
      else w.(pausedAt := if w.pausedAt.Some? then None else Some(|w.log|))
    case Launch => w.(setup := false)
    case RunFailed => w.(failures := w.failures + 1)
  }

  /** The events the view may draw from. */
  function Drawn(w: Workspace): seq<SimEvent> {
    if w.pausedAt.Some? && w.pausedAt.value <= |w.log| then w.log[..w.pausedAt.value] else w.log
  }

  function Shown(w: Workspace, pick: Picker): seq<SimEvent> {
    Filter(pick(w.category, w.input), Drawn(w))
  }

  /** What a rule selects from the first `n` events, gathered one by one. */
  function Gather(p: SimEvent -> bool, log: seq<SimEvent>, n: nat): seq<SimEvent>
    requires n <= |log|
  {
    if n == 0 then []
    else if p(log[n - 1]) then Gather(p, log, n - 1) + [log[n - 1]]
    else Gather(p, log, n - 1)
  }

  lemma {:induction false} GatherIsFilter(p: SimEvent -> bool, log: seq<SimEvent>, n: nat)
    requires n <= |log|
    ensures Gather(p, log, n) == Filter(p, log[..n])
  {
    if n > 0 {
      GatherIsFilter(p, log, n - 1);
      FilterSnoc(p, log, n - 1);
    }
  }

  lemma {:induction false} GatherPrefix(p: SimEvent -> bool, log: seq<SimEvent>, e: SimEvent, n: nat)
    requires n <= |log|
    ensures Gather(p, log + [e], n) == Gather(p, log, n)
  {
    if n > 0 {
      GatherPrefix(p, log, e, n - 1);
    }
  }

  lemma {:induction false} GatheredIsOld(p: SimEvent -> bool, log: seq<SimEvent>, n: nat, i: nat)
    requires Distinct(log) && n <= i < |log|
    ensures NewTo(Gather(p, log, n), log[i])
  {
    if n > 0 {
      GatheredIsOld(p, log, n - 1, i);
      assert !SameId(log[n - 1], log[i]);
    }
  }

  predicate OfKind(k: Kind, e: SimEvent) {
    e.display.Some? && e.display.value.kind == k
  }

  datatype Totals = Totals(turns: nat, toolCalls: nat, errors: nat)

  /** The totals of the first `n` events. */
  function Tally(log: seq<SimEvent>, n: nat): Totals
    requires n <= |log|
  {
    if n == 0 then Totals(0, 0, 0) else Counted(Tally(log, n - 1), log[n - 1])
  }

  function Counted(t: Totals, e: SimEvent): Totals {
    if OfKind(User, e) then t.(turns := t.turns + 1)
    else if OfKind(ToolSelected, e) then t.(toolCalls := t.toolCalls + 1)
    else if OfKind(Error, e) then t.(errors := t.errors + 1)
    else t
  }

  function OnlyKind(k: Kind): SimEvent -> bool {
    e => OfKind(k, e)
  }

  lemma {:induction false} TallyGathers(log: seq<SimEvent>, n: nat)
    requires n <= |log|
    ensures Tally(log, n).turns == |Gather(OnlyKind(User), log, n)|
    ensures Tally(log, n).toolCalls == |Gather(OnlyKind(ToolSelected), log, n)|
    ensures Tally(log, n).errors == |Gather(OnlyKind(Error), log, n)|
  {
    if n > 0 {
      TallyGathers(log, n - 1);
    }
  }

  /** Each total is the number of events of its kind. */
  lemma TallyMeaning(log: seq<SimEvent>)
    ensures Tally(log, |log|).turns == |Filter(OnlyKind(User), log)|
    ensures Tally(log, |log|).toolCalls == |Filter(OnlyKind(ToolSelected), log)|
    ensures Tally(log, |log|).errors == |Filter(OnlyKind(Error), log)|
  {
    TallyGathers(log, |log|);
    GatherIsFilter(OnlyKind(User), log, |log|);
    GatherIsFilter(OnlyKind(ToolSelected), log, |log|);
    GatherIsFilter(OnlyKind(Error), log, |log|);
    assert log[..|log|] == log;
  }

  lemma {:induction false} TallyPrefix(log: seq<SimEvent>, e: SimEvent, n: nat)
    requires n <= |log|
    ensures Tally(log + [e], n) == Tally(log, n)
  {
    if n > 0 {
      TallyPrefix(log, e, n - 1);
    }
  }

  function Run(w: Workspace, steps: seq<Step>): Workspace
    decreases steps
  {
    if steps == [] then w else Run(Next(w, steps[0]), steps[1..])
  }

  function WithoutPauses(steps: seq<Step>): seq<Step> {
    if steps == [] then []
    else (if steps[0].TogglePause? then [] else [steps[0]]) + WithoutPauses(steps[1..])
  }

  function Resumed(w: Workspace): Workspace {
    w.(pausedAt := None)
  }

  /** Pausing changes nothing that the other steps look at. */
  lemma ResumedNext(w: Workspace, step: Step)
    ensures Resumed(Next(w, step)) == if step.TogglePause? then Resumed(w) else Next(Resumed(w), step)
  {
  }

  lemma {:induction false} ResumedRun(w: Workspace, steps: seq<Step>)
    ensures Resumed(Run(w, steps)) == Run(Resumed(w), WithoutPauses(steps))
    decreases steps
  {
    if steps != [] {
      var first, later := steps[0], WithoutPauses(steps[1..]);
      ResumedRun(Next(w, first), steps[1..]);
      ResumedNext(w, first);
      if first.TogglePause? {
        assert [] + later == later;
      } else {
        assert ([first] + later)[1..] == later;
      }
    }
  }

  /** A run that starts and ends unpaused ends in the workspace of the run with every pause and resume left
      out: same log, same filter, same queued edits. */
  lemma SameWorkspace(w: Workspace, steps: seq<Step>)
    requires w.pausedAt.None? && Run(w, steps).pausedAt.None?
    ensures Run(w, steps) == Run(w, WithoutPauses(steps))
  {
    ResumedRun(w, steps);
    assert Resumed(w) == w;
  }

  /** While paused, whatever else happens, the view draws from the events before the pause only. */
  lemma {:induction false} PausedViewFrozen(w: Workspace, steps: seq<Step>)
    requires w.pausedAt.Some? && w.pausedAt.value <= |w.log|
    requires forall i :: 0 <= i < |steps| ==> !steps[i].TogglePause?
    ensures var r := Run(w, steps);
            r.pausedAt == w.pausedAt && w.log <= r.log && Drawn(r) == Drawn(w)
    decreases steps
  {
    if steps != [] {
      PausedViewFrozen(Next(w, steps[0]), steps[1..]);
    }
  }

  // ---------------------------------------------------------------------------
  // The application object
  // ---------------------------------------------------------------------------

  ghost predicate RowsMatch(rows: seq<Row>, visible: seq<SimEvent>) {
    && |rows| == |visible|
    && forall i :: 0 <= i < |visible| ==> visible[i].display.Some? && rows[i] == RowOf(visible[i])
  }

  /** A new event's key is new to the table. */
  lemma FreshKey(rows: seq<Row>, visible: seq<SimEvent>, e: SimEvent)
    requires RowsMatch(rows, visible) && Distinct(visible) && NewTo(visible, e) && e.display.Some?
    ensures forall i :: 0 <= i < |rows| ==> rows[i].key != RowOf(e).key
  {
    forall i | 0 <= i < |rows| ensures rows[i].key != RowOf(e).key {
      assert Built(visible[i]) && !SameId(visible[i], e);
      if rows[i].key == RowOf(e).key {
        KeyInjective(visible[i].runId, visible[i].number, e.runId, e.number);
      }
    }
  }

  /** The log and what a pause holds back: `pending` is exactly what was received since, and `ids`
      tells those events apart from the earlier ones. */
  ghost predicate LogValid(events: seq<SimEvent>, pending: seq<SimEvent>, ids: set<(string, int)>, paused: bool) {
    && Distinct(events)
    && |pending| <= |events| && (forall k :: 0 <= k < |pending| ==> pending[k] == events[|events| - |pending| + k])
    && (!paused ==> pending == [] && ids == {})
    && forall i {:trigger Id(events[i])} :: 0 <= i < |events| ==> (Id(events[i]) in ids <==> |events| - |pending| <= i)
  }

  /** The rows belong to the visible events one by one, and their keys differ. */
  ghost predicate TableValid(rows: seq<Row>, visible: seq<SimEvent>, events: seq<SimEvent>) {
    RowsMatch(rows, visible) && Distinct(visible) && forall k :: 0 <= k < |visible| ==> visible[k] in events
  }

  /** No two rows share a key, and the rows are determined by the events shown. */
  lemma RowsUnambiguous(rows: seq<Row>, others: seq<Row>, visible: seq<SimEvent>)
    requires RowsMatch(rows, visible) && RowsMatch(others, visible) && Distinct(visible)
    ensures rows == others
    ensures forall i, j :: 0 <= i < j < |rows| ==> rows[i].key != rows[j].key
  {
    forall i, j | 0 <= i < j < |rows| ensures rows[i].key != rows[j].key {
      assert Built(visible[i]) && Built(visible[j]) && !SameId(visible[i], visible[j]);
      if rows[i].key == rows[j].key {
        KeyInjective(visible[i].runId, visible[i].number, visible[j].runId, visible[j].number);
      }
    }
  }

  /** Every event that a run receives is new to the log it joins. */
  ghost predicate ReceivesNew(w: Workspace, steps: seq<Step>)
    decreases steps
  {
    steps == [] || ((steps[0].Receive? ==> NewTo(w.log, steps[0].event)) && ReceivesNew(Next(w, steps[0]), steps[1..]))
  }

  class SimulatorApp {
    const pick: Picker
    var events: seq<SimEvent>
    var visible: seq<SimEvent>
    var rows: seq<Row>
    var pending: seq<SimEvent>
    var pendingSequences: set<(string, int)>
    var paused: bool
    var activeCategory: Category
    var input: string
    var edits: seq<string>
    var isConfigMode: bool
    var turns: nat
    var toolCalls: nat
    var errors: nat
    ghost var failures: nat

    /** How many events the view may draw from. */
    ghost function Limit(): nat
      reads `events, `pending
    {
      if |pending| <= |events| then |events| - |pending| else 0
    }

    ghost function State(): Workspace
      reads this
    {
      Workspace(isConfigMode, events, if paused then Some(Limit()) else None, activeCategory, input, edits, failures)
    }

    /** The rows match the log; the totals count the whole log, paused or not; the cached view agrees
        with filtering the log, unless an edit of the search field is still on its way to the handler. */
    ghost predicate Valid()
      reads this
    {
      && LogValid(events, pending, pendingSequences, paused)
      && TableValid(rows, visible, events)
      && failures <= errors && Totals(turns, toolCalls, errors - failures) == Tally(events, |events|)
      && (edits == [] ==> visible == Gather(pick(activeCategory, input), events, Limit()))
      && (edits != [] ==> edits[|edits| - 1] == input)
    }

    constructor (configMode: bool, pick: Picker)
      ensures Valid() && State() == Workspace(configMode, [], None, All, "", [], 0) && this.pick == pick
    {
      this.pick := pick;
      events, visible, rows, pending, pendingSequences, paused := [], [], [], [], {}, false;
      activeCategory, input, edits, isConfigMode := All, "", [], configMode;
      turns, toolCalls, errors, failures := 0, 0, 0, 0;
    }

    /** `_append_row` and the table's `add_row`, which raises on a repeated key. */
    method AppendRow(e: SimEvent)
      requires TableValid(rows, visible, events) && e in events && NewTo(visible, e)
      modifies this`visible, this`rows
      ensures TableValid(rows, visible, events)
      ensures visible == if e.display.Some? then old(visible) + [e] else old(visible)
    {
      if e.display.None? {
        return;
      }
      FreshKey(rows, visible, e);
      visible := visible + [e];
      rows := rows + [RowOf(e)];
    }

    /** `_render_rows`. */
    method RenderRows(query: string)
      requires LogValid(events, pending, pendingSequences, paused)
      modifies this`visible, this`rows
      ensures TableValid(rows, visible, events) && visible == Gather(pick(activeCategory, query), events, Limit())
    {
      rows, visible := [], [];
      var shows := pick(activeCategory, query);
      ghost var limit := Limit();
      for i := 0 to |events|
        invariant TableValid(rows, visible, events)
        invariant visible == Gather(shows, events, if i <= limit then i else limit)
      {
        var event := events[i];
        if paused && Id(event) in pendingSequences {
          continue;
        }
        if shows(event) {
          GatheredIsOld(shows, events, i, i);
          AppendRow(event);
        }
      }
    }

    /** The log and the totals grow together. */
    method LogEvent(e: SimEvent)
      requires failures <= errors && Totals(turns, toolCalls, errors - failures) == Tally(events, |events|)
      modifies `events, `turns, `toolCalls, `errors
      ensures events == old(events) + [e]
      ensures failures <= errors && Totals(turns, toolCalls, errors - failures) == Tally(events, |events|)
    {
      TallyPrefix(events, e, |events|);
      events := events + [e];
      if e.display.Some? {
        match e.display.value.kind
        case User => turns := turns + 1;
        case ToolSelected => toolCalls := toolCalls + 1;
        case Error => errors := errors + 1;
        case _ =>
      }
    }

    /** `receive_event` while paused. */
    method HoldEvent(e: SimEvent)
      requires Valid() && NewTo(events, e) && paused
      modifies `events, `turns, `toolCalls, `errors, `pending, `pendingSequences
      ensures Valid() && events == old(events) + [e] && pending == old(pending) + [e]
    {
      GatherPrefix(pick(activeCategory, input), events, e, Limit());
      TableGrows(rows, visible, events, e);
      HoldLog(e);
    }

    /** The log, the totals and what is held back. */
    method HoldLog(e: SimEvent)
      requires LogValid(events, pending, pendingSequences, paused) && NewTo(events, e) && paused
      requires failures <= errors && Totals(turns, toolCalls, errors - failures) == Tally(events, |events|)
      modifies `events, `turns, `toolCalls, `errors, `pending, `pendingSequences
      ensures LogValid(events, pending, pendingSequences, paused)
      ensures failures <= errors && Totals(turns, toolCalls, errors - failures) == Tally(events, |events|)
      ensures events == old(events) + [e] && pending == old(pending) + [e] && Limit() == old(Limit())
    {
      LogGrows(events, pending, pendingSequences, paused, e);
      LogEvent(e);
      pending, pendingSequences := pending + [e], pendingSequences + {Id(e)};
    }

    /** `receive_event` otherwise, up to the row. */
    method LogShownEvent(e: SimEvent)
      requires Valid() && NewTo(events, e) && !paused
      modifies `events, `turns, `toolCalls, `errors
      ensures LogValid(events, pending, pendingSequences, paused) && TableValid(rows, visible, events)
      ensures failures <= errors && Totals(turns, toolCalls, errors - failures) == Tally(events, |events|)
      ensures events == old(events) + [e] && NewTo(visible, e) && e in events
      ensures edits == [] ==>
                visible + (if pick(activeCategory, input)(e) then [e] else [])
                == Gather(pick(activeCategory, input), events, |events|)
    {
      GatherPrefix(pick(activeCategory, input), events, e, |events|);
      TableGrows(rows, visible, events, e);
      LogGrows(events, [], {}, false, e);
      LogEvent(e);
      assert events[|events| - 1] == e;
    }

    method ShowEvent(e: SimEvent)
      requires Valid() && NewTo(events, e) && !paused
      modifies `events, `turns, `toolCalls, `errors, `rows, `visible
      ensures Valid() && events == old(events) + [e]
      ensures visible == old(visible) + if pick(activeCategory, input)(e) then [e] else []
    {
      LogShownEvent(e);
      AppendShown(e);
      assert Limit() == |events|;
    }

    method AppendShown(e: SimEvent)
      requires TableValid(rows, visible, events) && e in events && NewTo(visible, e)
      modifies this`visible, this`rows
      ensures TableValid(rows, visible, events)
      ensures visible == old(visible) + if pick(activeCategory, input)(e) then [e] else []
    {
      if pick(activeCategory, input)(e) {
        AppendRow(e);
      } else {
        assert visible + [] == visible;
      }
    }

    /** `receive_event`. */
    method ReceiveEvent(e: SimEvent)
      requires Valid() && NewTo(events, e)
      modifies this
      ensures Valid() && State() == Next(old(State()), Receive(e))
      ensures paused ==> visible == old(visible) && rows == old(rows)
      ensures !paused ==> visible == old(visible) + if pick(activeCategory, input)(e) then [e] else []
    {
      if paused {
        HoldEvent(e);
      } else {
        ShowEvent(e);
      }
    }

    /** A new value of the search field queues a message for the handler. */
    method SetInput(text: string)
      modifies `input, `edits
      ensures input == text && edits == if text == old(input) then old(edits) else old(edits) + [text]
    {
      if text != input {
        input := text;
        edits := edits + [text];
      }
    }

    method EditFilter(text: string)
      requires Valid()
      modifies this`input, this`edits
      ensures Valid() && State() == Next(old(State()), Edit(text))
    {
      SetInput(text);
    }

    /** `filter_changed` on the oldest queued message. */
    method FilterChanged()
      requires Valid() && edits != []
      modifies this`edits, this`visible, this`rows
      ensures Valid() && State() == Next(old(State()), DeliverEdit)
    {
      var value := edits[0];
      edits := edits[1..];
      RenderRows(value);
    }

    method SetActiveCategory(c: Category)
      requires Valid()
      modifies this`activeCategory, this`visible, this`rows
      ensures Valid() && State() == Next(old(State()), Choose(c))
    {
      if isConfigMode {
        return;
      }
      activeCategory := c;
      RenderRows(input);
    }

    method ActionClearFilter()
      requires Valid()
      modifies this`input, this`edits, this`activeCategory, this`visible, this`rows
      ensures Valid() && State() == Next(old(State()), ClearFilter)
    {
      if isConfigMode {
        return;
      }
      EmptyFilter();
    }

    method EmptyFilter()
      requires Valid()
      modifies this`input, this`edits, this`activeCategory, this`visible, this`rows
      ensures Valid() && activeCategory == All && input == ""
      ensures edits == if old(input) == "" then old(edits) else old(edits) + [""]
    {
      SetInput("");
      activeCategory := All;
      RenderRows("");
    }

    method ActionTogglePause()
      requires Valid()
      modifies this
      ensures Valid() && State() == Next(old(State()), TogglePause)
      ensures visible == if old(paused) && !paused then Gather(pick(activeCategory, input), events, |events|)
                         else old(visible)
    {
      if isConfigMode {
        return;
      }
      paused := !paused;
      if !paused {
        pending := [];
        pendingSequences := {};
        RenderRows(input);
      }
    }

    /** The timeline part of a successful launch. */
    method LeaveSetup()
      requires Valid()
      modifies this`isConfigMode
      ensures Valid() && State() == Next(old(State()), Launch)
    {
      isConfigMode := false;
    }

    /** `_set_failed`: a run that stopped counts as one more error. */
    method SetFailed()
      requires Valid()
      modifies this`errors, this`failures
      ensures Valid() && State() == Next(old(State()), RunFailed)
    {
      errors := errors + 1;
      failures := failures + 1;
    }

    method Take(step: Step)
      requires Valid() && (step.Receive? ==> NewTo(events, step.event))
      modifies this
      ensures Valid() && State() == Next(old(State()), step)
    {
      match step
      case Receive(e) => ReceiveEvent(e);
      case Edit(text) => EditFilter(text);
      case DeliverEdit => if edits != [] { FilterChanged(); }
      case Choose(c) => SetActiveCategory(c);
      case ClearFilter => ActionClearFilter();
      case TogglePause => ActionTogglePause();
      case Launch => LeaveSetup();
      case RunFailed => SetFailed();
    }

    /** Whatever order the handlers run in, the object stays valid and follows the abstract run. */
    method TakeAll(steps: seq<Step>)
      requires Valid() && ReceivesNew(State(), steps)
      modifies this
      ensures Valid() && State() == Run(old(State()), steps)
      decreases steps
    {
      if steps != [] {
        Take(steps[0]);
        TakeAll(steps[1..]);
      }
    }

    /** `row_highlighted`: the detail shown belongs to the row's own key. */
    method RowHighlighted(cursorRow: int) returns (detail: Option<Display>)
      requires Valid()
      ensures 0 <= cursorRow < |rows| ==> detail == Some(rows[cursorRow].display)
      ensures !(0 <= cursorRow < |rows|) ==> detail == None
    {
      if cursorRow < 0 || cursorRow >= |visible| {
        return None;
      }
      detail := visible[cursorRow].display;
    }
  }

  /** What the cache promises: with no edit under way, the view is the filtered log, cut where the
      pause began. */
  lemma VisibleIsShown(app: SimulatorApp)
    requires app.Valid() && app.edits == []
    ensures app.visible == Shown(app.State(), app.pick)
  {
    var events := app.events;
    GatherIsFilter(app.pick(app.activeCategory, app.input), events, app.Limit());
    assert events[..|events|] == events;
  }

  /** With the application's own rule the view is the selection that the category and search laws of
      `EventFilter` are about: an event is shown exactly when it is not held back and matches. */
  lemma VisibleIsSelected(app: SimulatorApp)
    requires app.Valid() && app.edits == [] && app.pick == MatchesPicker()
    ensures app.visible == Select(Drawn(app.State()), app.activeCategory, app.input)
    ensures forall e :: e in app.visible <==> e in Drawn(app.State()) && Matches(e, app.activeCategory, app.input)
  {
    VisibleIsShown(app);
    FilterMembers(Pick(app.activeCategory, app.input), Drawn(app.State()));
  }

  lemma {:induction false} FilterMembers(p: SimEvent -> bool, log: seq<SimEvent>)
    ensures forall e :: e in Filter(p, log) <==> e in log && p(e)
  {
    if log != [] {
      FilterMembers(p, log[1..]);
      assert forall e :: e in log <==> e == log[0] || e in log[1..];
    }
  }

  /** Pausing is transparent on screen: an application whose run starts and ends unpaused has the log and the
      totals of one that took the same steps without the pauses and resumes, and the same view and rows
      unless an edit of the search field still waits for its handler. */
  lemma PauseTransparent(app: SimulatorApp, other: SimulatorApp, w: Workspace, steps: seq<Step>)
    requires app.Valid() && other.Valid() && app.pick == other.pick && w.pausedAt.None? && !app.paused
    requires app.State() == Run(w, steps) && other.State() == Run(w, WithoutPauses(steps))
    ensures app.events == other.events && app.edits == other.edits
    ensures app.turns == other.turns && app.toolCalls == other.toolCalls && app.errors == other.errors
    ensures app.edits == [] ==> app.visible == other.visible && app.rows == other.rows
  {
    SameWorkspace(w, steps);
    assert app.State() == other.State();
    if app.edits == [] {
      VisibleIsShown(app);
      VisibleIsShown(other);
      RowsUnambiguous(app.rows, other.rows, app.visible);
    }
  }

  /** The queued edit is the exception: resuming renders with the text of the field, which the waiting
      handler has not yet done. Here a run with a pause shows nothing and the same run without it still
      shows an event. */
  method QueuedEditShowsPause(pick: Picker, text: string, first: SimEvent, second: SimEvent)
    returns (app: SimulatorApp, other: SimulatorApp)
    requires text != "" && pick(All, "")(first) && !pick(All, text)(first) && !pick(All, text)(second)
    requires NewTo([], first) && NewTo([first], second)
    ensures fresh(app) && fresh(other) && app.Valid() && other.Valid() && app.State() == other.State()
    ensures !app.paused && app.edits != [] && app.visible == [] && other.visible == [first]
  {
    app := WithQueuedEdit(pick, text, first);
    other := WithQueuedEdit(pick, text, first);
    ReceivePaused(app, first, second);
    other.ReceiveEvent(second);
  }

  method WithQueuedEdit(pick: Picker, text: string, first: SimEvent) returns (app: SimulatorApp)
    requires text != "" && pick(All, "")(first) && NewTo([], first)
    ensures fresh(app) && app.Valid() && app.pick == pick && app.visible == [first]
    ensures app.State() == Workspace(false, [first], None, All, text, [text], 0)
  {
    app := new SimulatorApp(false, pick);
    app.ReceiveEvent(first);
    app.EditFilter(text);
  }

  /** An event received between a pause and a resume. */
  method ReceivePaused(app: SimulatorApp, first: SimEvent, second: SimEvent)
    requires app.Valid() && !app.paused && !app.isConfigMode && app.events == [first] && NewTo([first], second)
    requires !app.pick(app.activeCategory, app.input)(first) && !app.pick(app.activeCategory, app.input)(second)
    modifies app
    ensures app.Valid() && app.State() == Next(old(app.State()), Receive(second)) && app.visible == []
  {
    app.ActionTogglePause();
    HoldSecond(app, second);
    Resume(app);
  }

  method HoldSecond(app: SimulatorApp, second: SimEvent)
    requires app.Valid() && app.paused && |app.events| == 1 && NewTo(app.events, second)
    requires !app.pick(app.activeCategory, app.input)(app.events[0])
    requires !app.pick(app.activeCategory, app.input)(second)
    modifies app
    ensures app.Valid() && app.State() == Next(old(app.State()), Receive(second))
    ensures forall k :: 0 <= k < |app.events| ==> !app.pick(app.activeCategory, app.input)(app.events[k])
  {
    app.ReceiveEvent(second);
  }

  method Resume(app: SimulatorApp)
    requires app.Valid() && app.paused && !app.isConfigMode
    requires forall k :: 0 <= k < |app.events| ==> !app.pick(app.activeCategory, app.input)(app.events[k])
    modifies app
    ensures app.Valid() && app.State() == Next(old(app.State()), TogglePause) && app.visible == []
  {
    GatherNone(app.pick(app.activeCategory, app.input), app.events, |app.events|);
    app.ActionTogglePause();
  }

  lemma GatherNone(p: SimEvent -> bool, log: seq<SimEvent>, n: nat)
    requires n <= |log| && forall k :: 0 <= k < n ==> !p(log[k])
    ensures Gather(p, log, n) == []
  {
  }

  /** Choosing a category shows its events that match the text of the field. */
  lemma ChoosingShowsCategory(app: SimulatorApp, w: Workspace, c: Category)
    requires app.Valid() && app.edits == [] && app.pick == MatchesPicker()
    requires !w.setup && app.State() == Next(w, Choose(c))
    ensures forall e :: e in app.visible <==> e in Drawn(w) && Matches(e, c, w.input)
  {
    VisibleIsSelected(app);
  }

  /** Once the message of an edit was handled, the view shows what matches the text. */
  lemma EditingShowsMatches(app: SimulatorApp, w: Workspace, text: string)
    requires app.Valid() && app.pick == MatchesPicker() && w.edits == []
    requires app.State() == Next(Next(w, Edit(text)), DeliverEdit)
    ensures forall e :: e in app.visible <==> e in Drawn(w) && Matches(e, w.category, text)
  {
    assert app.edits == [];
    VisibleIsSelected(app);
  }

  /** Clearing the filter shows every event that has a display and is not held back. */
  lemma ClearShowsAll(app: SimulatorApp, w: Workspace)
    requires app.Valid() && app.edits == [] && app.pick == MatchesPicker()
    requires !w.setup && app.State().(edits := []) == Next(w, ClearFilter).(edits := [])
    ensures forall e :: e in app.visible <==> e in Drawn(w) && e.display.Some?
  {
    VisibleIsSelected(app);
    forall e ensures Matches(e, All, "") <==> e.display.Some? {
      MatchesMeaning(e, All, "");
    }
  }

  /** While paused, what is held back is exactly the log received since the pause; otherwise nothing is. */
  lemma PendingSinceThePause(app: SimulatorApp)
    requires app.Valid()
    ensures app.pending == if app.paused then app.events[app.State().pausedAt.value..] else []
    ensures app.paused ==> Drawn(app.State()) + app.pending == app.events
  {
    assert app.events[..app.Limit()] + app.events[app.Limit()..] == app.events;
  }

  lemma DistinctGrows(events: seq<SimEvent>, e: SimEvent)
    requires Distinct(events) && NewTo(events, e)
    ensures Distinct(events + [e])
  {
  }

  lemma LogGrows(events: seq<SimEvent>, pending: seq<SimEvent>, ids: set<(string, int)>, paused: bool, e: SimEvent)
    requires LogValid(events, pending, ids, paused) && NewTo(events, e)
    ensures paused ==> LogValid(events + [e], pending + [e], ids + {Id(e)}, paused)
    ensures !paused ==> LogValid(events + [e], pending, ids, paused)
  {
    DistinctGrows(events, e);
    forall i | 0 <= i < |events| ensures Id(events[i]) != Id(e) {
      assert !SameId(events[i], e);
    }
  }

  lemma TableGrows(rows: seq<Row>, visible: seq<SimEvent>, events: seq<SimEvent>, e: SimEvent)
    requires TableValid(rows, visible, events) && NewTo(events, e)
    ensures TableValid(rows, visible, events + [e]) && NewTo(visible, e)
  {
    forall k | 0 <= k < |visible| ensures !SameId(visible[k], e) {
      assert visible[k] in events;
    }
  }

  lemma FilterSnoc(p: SimEvent -> bool, events: seq<SimEvent>, i: nat)
    requires i < |events|
    ensures Filter(p, events[..i + 1]) == Filter(p, events[..i]) + if p(events[i]) then [events[i]] else []
  {
    FilterConcat(p, events[..i], [events[i]]);
    assert events[..i + 1] == events[..i] + [events[i]];
    FilterCons(p, events[i], []);
    assert [events[i]] + [] == [events[i]];
  }
}
