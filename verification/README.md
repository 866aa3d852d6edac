# Verified model of the simulation lab

A Dafny model of the parts of the application where state, interleaving and text formats meet: the
resumable event stream and its writers, the live timeline with its setup wizard, the sanitizing span
recorder and its tracer cache, the deterministic model substitute, one turn of the support agent, the
database URL rewriters and the terminal text of the timeline. `dafny verify dfyconfig.toml` checks all
of it.

Code that changes fields in place is modelled by classes and methods with loops, each proved against a
function on values; what the application promises is then proved about those functions, over all
inputs, all interleavings or all runs. Concurrency is modelled by what other tasks do at each point
where the code waits, as an input that every theorem quantifies over.

## Layout

| File | Contents |
|---|---|
| `Wrappers`, `PythonText`, `Sequences` | shared values, the Python string operations, sequence facts |
| `SequencedLog` | a table with a unique ascending number, its insert and its page query |
| `EventStream` | the event frames and a parser after sections 9.2.5 and 9.2.6 of the WHATWG HTML Living Standard |
| `EventDelivery` | the polling generator, interleaved writers, clients that are cut off and resume, the command line reader |
| `BridgeUplink` | the writer: numbered events, batches, lost replies, late requests, and the intake that closes |
| `BridgedDelivery` | the writer and the resumable stream together |
| `Inbox` | the chat inbox route and the bridge that polls it, with ids committed in any order |
| `EventFilter`, `Timeline` | categories and search; the incremental view with its pause |
| `SetupWizard` | the seven setup questions and the presses that wait for their handlers |
| `AttributeAllowlist`, `SpanRecorder`, `TracerCache` | telemetry |
| `OfflineModel` | the scripted model and the model that multiplexes plans |
| `SupportDesk`, `SupportAgent` | the service behind the agent's tools; one turn of the agent |
| `OfflineTurn` | the scripted model inside a turn of the agent |
| `DatabaseUrl` | the two URL rewriters over an insertion-ordered dictionary |
| `TimelineText` | escaping, shortening and the width of a timeline line |

## Properties that turned out conditional

Each is stated with its exact condition, or with an input that shows the failure.

- A connection sends everything its cursor passes exactly when no row is inserted behind the cursor
  (`EventDelivery.GapFreeExactlyWhenInTime`). Over a whole session the client hears every row between its
  first and its latest cursor exactly when no row is inserted behind both the server's cursor and the place
  where the client resumes (`EventDelivery.HeardExactlyWhenInTime`). The inbox relays every message its
  cursor passes exactly when none is committed behind the cursor (`Inbox.RelayedExactlyWhenInTime`).
- Once an investigation is terminal the service answers a batch with success without storing it, unless
  the investigation completed and the batch holds closing events only. So the table is a prefix of the
  bridge's events with all acknowledged ones in it, at every moment, exactly when the bridge never hears
  success for a batch that was refused with news in it (`BridgeUplink.AcknowledgedStoredExactly`); a
  refusal whose reply is lost does no harm. `BridgeUplink.StoredExactly` says which events are in the table
  in every reachable state. `BridgeUplink.ClosedIntakeLosesEvents` shows that after every ordinary end of a
  run acknowledged events can be missing, and a late batch can land behind a later row. A batch appends in
  order exactly when it is not accepted behind the table (`BridgeUplink.ArrivalAppendsExactly`); with the
  stream attached, that is enough for hearing everything once (`BridgedDelivery.BridgeEventsHeardOnce`,
  `BridgedDelivery.AcknowledgedEventsHeardOnce`).
- The last trailing read, and an attached command line reader, leave events unread exactly when more
  than 50 wait (`EventDelivery.TrailingFlush`, `EventDelivery.TailPrintsOnePage`).
- A client that follows the standard loses its place on a connection that brings whole keep-alive
  comments and no whole event, because the id buffer of a new stream is empty
  (`EventStream.StandardClientKeepsItsPlace`, `EventDelivery.StandardConnectExactly`). It hears everything
  once and in order exactly when no connection that hears anything resumes with a row between its cursor
  and the last event heard (`EventDelivery.StandardHearsOnceExactly`).
- A pause is transparent for log and totals, and for view and rows unless an edit of the search field still
  waits for its handler when they are compared (`Timeline.PauseTransparent`): resuming renders with the text
  of the field, which the waiting handler has not done yet (`Timeline.QueuedEditShowsPause`).
- Settings that are exported share their fingerprint with settings of another endpoint and project
  exactly when a `|` stands in the project or past the first character of the endpoint
  (`TracerCache.BarsCollide`). A cached provider serves as a fresh one would exactly when the settings it
  was built from have the same fields (`TracerCache.HitServesExactly`). With LangSmith export off, it can
  carry another project label (`TracerCache.SameFingerprintSameService`).
- `use_asyncpg_driver` is idempotent exactly when the scheme is not PostgreSQL written with capitals:
  the prefix test looks at the text as written while the parser lowers the scheme
  (`DatabaseUrl.AsyncpgIdempotentExactly`).
- A refund that was confirmed and carried out is answered as blocked when another order was looked up
  after it (`SupportAgent.MaskedRefund`, `SupportAgent.MaskedExactly`).
- A lookup that times out is repeated once. The retry scenario reports its order after at most one
  timeout, and answers with the failure text after two or more (`OfflineTurn.OrderStatusDespiteTimeouts`);
  the limits under which any plan reaches its answer are in `OfflineTurn.PlanAnswersExactly`.
- A citation of a chunk whose document version is empty raises out of the turn
  (`SupportAgent.RaisesExactly`).
- "Continue" indexes past the last wizard step exactly at the review, where its button is hidden. A press
  that waited since an earlier step gets there: waiting presses crash the wizard exactly when they
  outnumber the questions left and no answer stops them (`SetupWizard.ContinuesCrashExactly`,
  `SetupWizard.TwoPressesCrash`). Presses handled before the next is made are safe
  (`SetupWizard.PromptPathIsSound`).
- A launch handled at the review runs what the card shows exactly when the environment field is not empty;
  one that waited and is handled at another question does so exactly when the answers still agree with the
  card (`SetupWizard.LaunchHonoursExactly`). `SetupWizard.QueuedLaunchSkipsReview` is an order of presses
  and typing in which they do not; no order launches an invalid request
  (`SetupWizard.QueuedLaunchIsRunnable`).
- A plan without an answer ends in an index error after its last call
  (`OfflineModel.ReplayWithoutAnswer`).

## Where code and documentation differ

- The description of `sanitize_attributes` says both that overlong values are dropped and that strings
  are truncated; the code cuts them to 256 characters, and so does the model
  (`src/app/telemetry/allowlist.py:96-121`).
- `build_tracer` says that it caches one provider for each configuration; it caches one for each
  fingerprint, which leaves the API key out, and the project when LangSmith export is off.
- The policy tool is registered with one retry, but it turns no timeout into a retry request: a timeout
  ends the model run (`src/app/adapters/pydantic_ai_agent.py:493-514`).
- The comment on closing events speaks of the batch right after the summary batch; the code accepts any
  later batch of closing events, and refuses one that also holds a heartbeat
  (`src/app/domain/investigation/service.py:434-446`).

## Model

| member | source | states |
|---|---|---|
| SequencedLog.PageMeaning | src/app/domain/investigation/repository.py:271-290 | a page holds rows past the cursor in ascending order; a row past the cursor is missing only from a full page of smaller rows |
| SequencedLog.PagesCompose | src/app/domain/investigation/repository.py:271-290 | two pages read one after the other are one page of the combined size |
| SequencedLog.InsertDuplicate | src/app/domain/investigation/repository.py:214-269 | an insert with a taken number leaves the table alone |
| SequencedLog.InsertSorted | src/app/domain/investigation/repository.py:214-269 | an insert keeps the numbers unique and ascending |
| SequencedLog.InsertMembers | src/app/domain/investigation/repository.py:214-269 | an insert adds the new row and loses none |
| EventStream.FrameRoundTrip | src/app/api/investigations_router.py:138-159 | parsing printed frames and keep-alive comments gives messages from which number, kind and payload of every event can be read back, in order and nothing else |
| EventStream.KindRoundTrip | src/app/domain/runner/schemas.py:212-230 | the reader of wire names gives back every kind |
| EventStream.FeedField | src/app/api/investigations_router.py:138-141 | a printed `name: value` line sets that field to exactly that value |
| EventStream.FeedPartOfChunk | src/app/api/investigations_router.py:138-159 | a frame cut before its last character dispatches nothing |
| EventStream.CutStream | src/app/api/investigations_router.py:138-159 | a stream cut at any character yields exactly the events whose frames arrived whole, and they can be read back |
| EventStream.StandardClientKeepsItsPlace | src/app/api/investigations_router.py:117-159 | over a stream cut anywhere, a standard client resumes with the id of the last event it heard, unless whole keep-alive comments and no whole event came; then with the empty id |
| EventDelivery.InvestigationStore.Suspend | src/app/domain/investigation/service.py:321-360 | while the generator waits, other tasks record events and move the status along the allowed transitions, in any number and order |
| EventDelivery.EmitAll | src/app/api/investigations_router.py:136-141 | a batch is yielded frame by frame and the cursor ends at its last event |
| EventDelivery.EventGenerator | src/app/api/investigations_router.py:124-160 | for every interleaving the generator yields what the delivery function says, and leaves the tables to the writers |
| EventDelivery.ServeOrdered | src/app/api/investigations_router.py:124-156 | whatever the writers do, a connection never repeats, reorders or invents an event |
| EventDelivery.ServeFollowsLog | src/app/api/investigations_router.py:124-156 | when no row is late, the events sent are exactly the rows the cursor moved over |
| EventDelivery.LateRowLost | src/app/domain/investigation/repository.py:214-269 | a row inserted behind the cursor is in the log, inside the passed range, and never sent |
| EventDelivery.GapFreeExactlyWhenInTime | src/app/api/investigations_router.py:124-156 | a connection sends exactly the rows it passes if and only if no row is inserted behind its cursor |
| EventDelivery.InOrderIsInTime | src/app/api/investigations_router.py:124-156 | writers that append in order never insert behind a cursor |
| EventDelivery.KeepAlivePerTurn | src/app/api/investigations_router.py:144-159 | a waiting client gets one keep-alive comment for every turn that does not end the connection, and none besides |
| EventDelivery.MovesExactly | src/app/domain/investigation/service.py:48-68 | a status moves to the next stage, or from an unfinished one to failure or cancellation, and nowhere else |
| EventDelivery.LifeMovesOn | src/app/domain/investigation/service.py:321-360 | whatever is committed, an investigation never goes back, keeps its end, and completes only after it was running |
| EventDelivery.NoCursorStartsOver | src/app/api/investigations_router.py:117-122 | an empty or unreadable last event id is served like the id 0 |
| EventDelivery.HeardIsPrefix | src/app/api/investigations_router.py:117-160 | what a client hears before a cut is an initial part of what was sent |
| EventDelivery.ConnectFollowsLog | src/app/api/investigations_router.py:117-160 | one cut and resumed connection keeps what was heard equal to the rows between the first and the latest cursor |
| EventDelivery.ExactlyOnce | src/app/api/investigations_router.py:117-160 | over any interleaving and any number of connections cut anywhere, the events heard are a prefix of the log past the first cursor, in order, without gap or repeat |
| EventDelivery.StandardConnectExactly | src/app/api/investigations_router.py:117-160 | a standard client hears the same on every connection, and keeps its place if and only if the connection does not make it forget; then it starts over |
| EventDelivery.HeardExactlyWhenInTime | src/app/api/investigations_router.py:117-160 | over any writers and any connections cut anywhere, a client hears exactly the rows between its first and latest cursor if and only if none is inserted behind both the server's cursor and the place where the client resumes |
| EventDelivery.StandardClientHearsOnce | src/app/api/investigations_router.py:117-160 | a standard client resumes where the other one does if and only if no connection makes it forget; such a session, with in-order writers, delivers a prefix of the log past its first cursor, once and in order |
| EventDelivery.StandardHearsOnceExactly | src/app/api/investigations_router.py:117-160 | with in-order writers, a standard client hears the rows from its first cursor to the last event it heard, once and in order, if and only if no connection that hears anything resumes before a row it has passed |
| EventDelivery.DrainBound | src/app/api/investigations_router.py:131-156 | k connections to a finished investigation deliver the first min(n, 100 k) of n unseen events, so all exactly when k is at least n / 100 rounded up |
| EventDelivery.TrailingFlush | src/app/api/investigations_router.py:144-156 | the trailing read leaves nothing behind if and only if at most 50 events remained past the batch |
| EventDelivery.StreamEvents | src/app/cli/investigate.py:98-137 | the command line loop prints what the tailing function says, for every interleaving |
| EventDelivery.TailPrintsOnePage | src/app/cli/investigate.py:105-137 | attached to a finished investigation, the command line prints the first min(n, 50) events, so all if and only if n is at most 50 |
| BridgeUplink.Bridge.RecordEvent | src/app/domain/agent_runner/bridge.py:337-351 | every recorded event gets the next number and joins the buffer |
| BridgeUplink.InvestigationIntake.RecordEvents | src/app/domain/investigation/service.py:423-504 | a terminal investigation refuses a batch or stores a batch of closing events if it completed; otherwise the batch is stored, and finishing and fatal events move the status |
| BridgeUplink.Scan | src/app/domain/investigation/service.py:462-486 | the loop finds out which of the three deciding events the batch holds |
| BridgeUplink.Bridge.PostBatch | src/app/domain/agent_runner/bridge.py:379-422 | a batch is taken before the wait and leaves the buffer only when its reply arrives, whatever is recorded, delivered late or moved meanwhile, and whether or not the service stored it |
| BridgeUplink.Bridge.FlushEvents | src/app/domain/agent_runner/bridge.py:379-422 | posting continues until the buffer is empty or a post fails; success means an empty buffer |
| BridgeUplink.FlushTakes | src/app/domain/agent_runner/bridge.py:392-417 | a plain flush that succeeds takes the first 50 events off the buffer, or all of fewer; a forced one takes all |
| BridgeUplink.ClosedIntakeExactly | src/app/domain/investigation/service.py:434-446 | after its end an investigation stores a batch if and only if it completed and the batch holds ends and errors only |
| BridgeUplink.StatusTellsStory | src/app/domain/investigation/service.py:458-502 | in every reachable state, unless another task moves the status: open without an end or an error among the stored events, failed by an error or by an end without a summary, completed by an end with a summary |
| BridgeUplink.BatchExtends | src/app/domain/investigation/repository.py:214-269 | a batch that starts no later than the table ends extends the table in order, repeats included |
| BridgeUplink.BatchAppendsExactly | src/app/domain/investigation/repository.py:214-269 | a batch of recorded events appends in order if and only if each of its rows is stored already or lies past the table |
| BridgeUplink.StepHealthyExactly | src/app/domain/investigation/service.py:434-446 | with the batch in flight counted as stored once it was handled, one step keeps the agreement of bridge and table if and only if it does not refuse a batch with news |
| BridgeUplink.FaithfulExactly | src/app/domain/agent_runner/bridge.py:379-422 | from every state in which they agree, the table stays a prefix of the recorded events that holds all acknowledged ones, at every moment of a run, if and only if no batch refused with news gets its success reply |
| BridgeUplink.AcknowledgedStoredExactly | src/app/domain/investigation/service.py:434-446 | the same from the start of the bridge, over any lost replies and late or repeated requests |
| BridgeUplink.HealthyExactly | src/app/domain/investigation/service.py:434-446 | with the batch in flight counted as stored once it was handled, the agreement holds at every moment if and only if no batch is refused with news |
| BridgeUplink.RefusedNewsAreLost | src/app/domain/agent_runner/bridge.py:400-406 | the reply to a refused batch with news acknowledges events that are not in the table |
| BridgeUplink.StoredExactly | src/app/domain/investigation/service.py:423-504 | in every reachable state an event is stored if and only if it came before the intake closed or in a batch of closing events that a completed investigation accepted |
| BridgeUplink.ArrivalAppendsExactly | src/app/domain/investigation/service.py:434-458 | in every reachable state a batch that arrives, late or again, appends in order if and only if it is not accepted behind the table |
| BridgeUplink.ClosedIntakeLosesEvents | src/app/domain/agent_runner/bridge.py:860-870 | from every state in which a completed investigation has stored and acknowledged everything: an error and a heartbeat are acknowledged and not stored, a later error is stored, and the delayed first error lands behind it |
| BridgedDelivery.ConnectionInOrder | src/app/api/investigations_router.py:124-156 | while a connection is served over the uplink, its writers append in order if and only if no batch is accepted behind the table |
| BridgedDelivery.SessionInOrderExactly | src/app/api/investigations_router.py:117-160 | the same for sessions of any number of connections and what the uplink does between them, and their tables end where the uplink's do |
| BridgedDelivery.BridgeEventsHeardOnce | src/app/api/investigations_router.py:117-160 | over any interleaving of uplink steps with connections cut anywhere, a client hears a prefix of the table past its first cursor, once and in order, as long as no batch is accepted behind the table |
| BridgedDelivery.AcknowledgedEventsHeardOnce | src/app/domain/agent_runner/bridge.py:379-422 | unless a refusal of news is answered with success, the client hears the table past its first cursor without gap or repeat, and the table is a prefix of what was recorded that holds all acknowledged events |
| Inbox.PollInbox | src/app/api/investigations_router.py:177-201 | the route returns the page past the cursor, and its next cursor is the last id of the page and never smaller |
| Inbox.RelayedInOrder | src/app/domain/agent_runner/bridge.py:424-445 | whatever is committed when, the bridge relays messages of the queue past its cursor in ascending order, none twice |
| Inbox.RelayedExactlyWhenInTime | src/app/domain/agent_runner/bridge.py:424-445 | over any polls, page sizes, lost replies and commit orders, the messages relayed are exactly those the cursor passes if and only if none is committed behind the cursor |
| Inbox.LateMessageLost | src/app/api/investigations_router.py:177-201 | a message committed behind the cursor is in the queue and never relayed |
| Inbox.RelayedOnceInOrder | src/app/domain/agent_runner/bridge.py:424-445 | when ids are committed in ascending order, messages are relayed once each, in order, as a prefix of the queue |
| Inbox.PollAdvances | src/app/api/investigations_router.py:177-201 | an answered poll moves the cursor if and only if a message waits |
| EventFilter.MatchesMeaning | src/app/cli/textual_simulate.py:1287-1301 | an event matches if and only if its kind is shown and every word of the query occurs in its kind, source, text or one detail line; the blank query needs no special case |
| EventFilter.CaseDoesNotMatter | src/app/cli/textual_simulate.py:1294-1301 | queries that differ only in the case of letters match the same events |
| EventFilter.NamesReadBack | src/app/domain/user_simulator/events.py:49-75 | kinds and sources can be read back from their names |
| EventFilter.SameTermsSameMatches | src/app/cli/textual_simulate.py:1294-1301 | order, repetition and spacing of search terms do not matter |
| EventFilter.JoinedQuery | src/app/cli/textual_simulate.py:1294-1301 | two queries joined by white space match exactly what both match |
| EventFilter.AddingTermsNarrows | src/app/cli/textual_simulate.py:1287-1301 | adding terms filters the view there was |
| EventFilter.CategoriesMerge | src/app/cli/textual_simulate.py:102-116 | the view of all events is the disjoint, order-preserving merge of the four category views |
| Timeline.KeyInjective | src/app/cli/textual_simulate.py:1263 | the printed row key determines run and number, also for run ids with colons |
| Timeline.EventFactory.Build | src/app/domain/user_simulator/events.py:149-190 | each event built is new to all events built before |
| Timeline.TallyMeaning | src/app/cli/textual_simulate.py:1234-1243 | each total is the number of logged events of its kind |
| Timeline.SimulatorApp.AppendRow | src/app/cli/textual_simulate.py:1251-1265 | a shown event joins the view and the table under a key that is new there |
| Timeline.SimulatorApp.RenderRows | src/app/cli/textual_simulate.py:1270-1285 | rendering gives the filtered log up to where the pause began, with one matching row each |
| Timeline.SimulatorApp.ReceiveEvent | src/app/cli/textual_simulate.py:1229-1249 | log, totals, pending events and view stay in agreement; a paused view does not change |
| Timeline.SimulatorApp.FilterChanged | src/app/cli/textual_simulate.py:1267-1268 | handling the oldest queued edit keeps the invariant; after the last one the view agrees with the search field |
| Timeline.SimulatorApp.SetActiveCategory | src/app/cli/textual_simulate.py:1457-1462 | a category change re-renders in agreement with the log, and does nothing during setup |
| Timeline.SimulatorApp.ActionClearFilter | src/app/cli/textual_simulate.py:1500-1508 | clearing renders all categories under an empty query, and does nothing during setup |
| Timeline.SimulatorApp.ActionTogglePause | src/app/cli/textual_simulate.py:1510-1518 | pausing freezes the log position, resuming shows all that was held back |
| Timeline.SimulatorApp.SetFailed | src/app/cli/textual_simulate.py:1412-1416 | a run that stopped counts as one more error |
| Timeline.SimulatorApp.RowHighlighted | src/app/cli/textual_simulate.py:1304-1316 | a highlighted row shows the detail of its own event |
| Timeline.SimulatorApp.TakeAll | src/app/cli/textual_simulate.py:1228-1285 | after every sequence of handlers the object is valid and in the state of the abstract run |
| Timeline.VisibleIsShown | src/app/cli/textual_simulate.py:1270-1301 | in every valid state with no edit under way, the cached view is the log filtered by category and query, without the pending events |
| Timeline.VisibleIsSelected | src/app/cli/textual_simulate.py:1270-1301 | with the application's rule, an event is in the cached view if and only if it is not held back and matches category and search terms |
| Timeline.ClearShowsAll | src/app/cli/textual_simulate.py:1500-1508 | after clearing, an event is shown if and only if it has a display and is not held back |
| Timeline.ChoosingShowsCategory | src/app/cli/textual_simulate.py:1457-1462 | after choosing a category, an event is shown if and only if it is in it, matches the field and is not held back |
| Timeline.EditingShowsMatches | src/app/cli/textual_simulate.py:1267-1268 | after an edit was handled, an event is shown if and only if it matches the new text in the category and is not held back |
| Timeline.PendingSinceThePause | src/app/cli/textual_simulate.py:1244-1247 | while paused, the pending events are exactly the log received since the pause, and with the events drawn they make up the log |
| Timeline.RowsUnambiguous | src/app/cli/textual_simulate.py:1251-1265 | rows are determined by the events shown and no two share a key |
| Timeline.PauseTransparent | src/app/cli/textual_simulate.py:1510-1518 | an application whose run starts and ends unpaused has the log and totals of one that took the same steps without the pauses, and the same view and rows when no edit waits |
| Timeline.QueuedEditShowsPause | src/app/cli/textual_simulate.py:1267-1285 | with an edit waiting, a run with a pause and the same run without it end in the same workspace with different views |
| Timeline.PausedViewFrozen | src/app/cli/textual_simulate.py:1270-1285 | while paused the view draws from the events before the pause only, under any filter |
| SetupWizard.SetupScreen.ValidateSetupStep | src/app/cli/textual_simulate.py:978-997 | the shown question alone is checked: the turn limit is a number from 1 to 50, the profile is catalogued |
| SetupWizard.SetupScreen.OnScenarioSelected | src/app/cli/textual_simulate.py:999-1004 | a valid row loads the scenario's defaults and refreshes the review, any other row does nothing |
| SetupWizard.SetupScreen.OnSetupNext | src/app/cli/textual_simulate.py:1010-1015 | a complaint stays, otherwise the next question is shown, or the index error is raised |
| SetupWizard.SetupScreen.OnSetupBack | src/app/cli/textual_simulate.py:1017-1021 | the previous question is shown, and nothing happens at the first |
| SetupWizard.SetupScreen.OnLaunchClicked | src/app/cli/textual_simulate.py:1023-1087 | an invalid limit or profile leads back to its question, an issue is shown, otherwise the request is made |
| SetupWizard.ContinueCrashesAtReviewOnly | src/app/cli/textual_simulate.py:1010-1015 | "continue" indexes past the last step if and only if the review is shown |
| SetupWizard.SetupScreen.TakeAll | src/app/cli/textual_simulate.py:948-1087 | any interleaving of presses, typing and handlers runs as the queue semantics says, up to a crash |
| SetupWizard.EveryPathIsSound | src/app/cli/textual_simulate.py:932-1087 | if every handled action is still offered, no step crashes; past the turns question the limit is valid, at the review the profile is catalogued and the card is current, and a launched request is the reviewed one |
| SetupWizard.QueueCrashesExactly | src/app/cli/textual_simulate.py:1010-1015 | however presses and handlers interleave, the wizard crashes if and only if a press of "continue" is handled at the review |
| SetupWizard.ContinuesCrashExactly | src/app/cli/textual_simulate.py:978-1015 | n waiting presses of "continue" crash if and only if n exceeds the questions left and the answers from the shown one on are valid |
| SetupWizard.TwoPressesCrash | src/app/cli/textual_simulate.py:1010-1015 | at the last question two presses, both offered, crash |
| SetupWizard.PromptPathIsSound | src/app/cli/textual_simulate.py:932-1087 | if no press is made while another waits, the wizard does not crash and every form is sound, whatever is typed in between |
| SetupWizard.QueuedLaunchIsRunnable | src/app/cli/textual_simulate.py:1023-1087 | whatever waits, a launched request has a valid turn limit and a catalogued environment |
| SetupWizard.LaunchAsCatalogued | src/app/cli/textual_simulate.py:931-1087 | a scenario picked, reviewed and launched without a change runs with its own plugin, limit, environment and texts, and the card shows them |
| SetupWizard.LaunchAsTyped | src/app/cli/textual_simulate.py:999-1087 | what is typed at each question is what the launch runs |
| SetupWizard.LaunchHonoursExactly | src/app/cli/textual_simulate.py:948-1087 | in every reachable state a launch that starts at the review runs what the card shows if and only if the environment field is not empty, and elsewhere if and only if the answers agree with the card |
| SetupWizard.QueuedLaunchSkipsReview | src/app/cli/textual_simulate.py:1017-1087 | an order of presses and typing, from every sound review, in which a launch runs another environment than the card shows |
| SetupWizard.ReviewedLaunchStays | src/app/cli/textual_simulate.py:1023-1072 | a launch from a reachable review is never sent back to a question, and starts the run exactly when there are no issues |
| SetupWizard.BackUndoesContinue | src/app/cli/textual_simulate.py:1010-1021 | going on and back again changes nothing but the review card |
| AttributeAllowlist.SanitizeAttributes | src/app/telemetry/allowlist.py:96-121 | the loop computes the sanitized attributes, all of them safe |
| AttributeAllowlist.CleanExactly | src/app/telemetry/allowlist.py:96-121 | exactly which attributes are dropped, that a kept text is the first 256 characters, and that other values stay |
| AttributeAllowlist.CleanKeepsExactlySafe | src/app/telemetry/allowlist.py:96-121 | an attribute passes unchanged if and only if it is allowlisted, of 1 to 256 characters and free of forbidden text |
| AttributeAllowlist.SanitizedIdempotent | src/app/telemetry/allowlist.py:96-121 | sanitizing twice is sanitizing once; the fixed points are the safe attributes |
| AttributeAllowlist.TraceAllowlistHasNoMirror | src/app/telemetry/allowlist.py:13-93 | no allowlisted key is a mirrored key, so a mirror never overwrites an attribute |
| SpanRecorder.TraceSpan.SetAttribute | src/app/telemetry/recorder.py:53-104 | a write stores the sanitized value, and a traced span mirrors exactly the stored attributes under both keys |
| SpanRecorder.TraceSpan.SetError | src/app/telemetry/recorder.py:62-104 | the given code is stored, becomes the status of a traced span, and no attribute changes |
| SpanRecorder.TraceRecorder.ApplyInitialAttributes | src/app/telemetry/recorder.py:168-175 | the double sanitizing of initial attributes equals a single pass |
| SpanRecorder.TraceRecorder.RunSpan | src/app/telemetry/recorder.py:136-166 | with and without a tracer the listener hears the same trace of a nested span program; exceptions pass through after the end notice |
| SpanRecorder.TraceRecorder.RunAll | src/app/telemetry/recorder.py:136-179 | for every program the notices, attributes and error codes do not depend on the tracer, and each ended span is exported with exactly its attributes and their mirrors |
| SpanRecorder.TraceBalanced | src/app/telemetry/recorder.py:136-179 | the listener trace of every program, exceptional exits included, is a balanced bracket word with matching spans |
| SpanRecorder.DeedsAreTold | src/app/telemetry/recorder.py:53-179 | over every program the listener is told each span with its name; at its end it shows the code of the last error set on it, or none, and for each key the cleaned value of the last accepted write, whatever happened to other spans |
| SpanRecorder.AttributesSafe | src/app/telemetry/recorder.py:53-64 | at every moment everything stored on an open span and shown to the listener is safe |
| SpanRecorder.WholeRun | src/app/telemetry/recorder.py:136-179 | in a whole run every started span ends, in nested order, and only safe attributes are seen |
| SpanRecorder.ExportSafe | src/app/telemetry/recorder.py:91-98 | every exported attribute is a safe one under its own key or under `langsmith.metadata.` and its key |
| TracerCache.SpanProcessors | src/app/telemetry/config.py:65-75 | the enabled processors in order; none exactly when both outputs are off |
| TracerCache.ProcessorsExactly | src/app/telemetry/config.py:47-75 | a console if and only if it is enabled; a batch exporter if and only if the switch is on and there is a key, with this key, this project and the endpoint of the settings or the default |
| TracerCache.BuildTraceProvider | src/app/telemetry/config.py:78-99 | a provider with all enabled processors and the labels of the settings, or none exactly when both outputs are off |
| TracerCache.FreshExactly | src/app/telemetry/config.py:78-99 | no provider if and only if both outputs are off; otherwise its labels are environment, provider, model and project of the settings, or "unconfigured" |
| TracerCache.FingerprintInjective | src/app/telemetry/config.py:105-117 | for settings without an ambiguous bar, equal fingerprints mean equal fields |
| TracerCache.BarsCollide | src/app/telemetry/config.py:105-117 | exported settings share their fingerprint with another endpoint and project, and another provider, if and only if a bar stands in the project or past the first character of the endpoint |
| TracerCache.HitServesExactly | src/app/telemetry/config.py:78-117 | of two settings with one fingerprint, one serves as a fresh build for the other if and only if their fields are equal |
| TracerCache.SameFingerprintSameService | src/app/telemetry/config.py:78-117 | for settings without an ambiguous bar, one fingerprint means the same processors, endpoint, environment and model labels; the project label agrees exactly when export is on or the projects are equal |
| TracerCache.ProviderCache.Build | src/app/telemetry/config.py:120-136 | a hit builds nothing, a miss builds one provider unless tracing is off; one live provider per fingerprint |
| TracerCache.ProviderCache.Reset | src/app/telemetry/config.py:139-143 | afterwards the cache is empty and every provider ever built is shut down |
| TracerCache.BuildTracer | src/app/telemetry/config.py:120-136 | the tracer serves as a freshly built provider would if and only if it is one or was built from settings with the same fields, which unambiguous settings always have |
| OfflineModel.CountReturns | src/app/cli/offline.py:170-174 | the loops count the tool returns of the whole history |
| OfflineModel.Scripted | src/app/cli/offline.py:163-181 | a request without tools gets the plan's routing; otherwise the next planned call, or the answer after the last one; every reply has the cost of the plan |
| OfflineModel.CrashesWithoutAnswerOnly | src/app/cli/offline.py:163-181 | the index error occurs if and only if a plan without an answer has no call left |
| OfflineModel.ReplayWithRetries | src/app/cli/offline.py:163-181 | any plan with an answer is replayed in order, each call once more per retry, then answered, in calls + retries + 1 requests |
| OfflineModel.ReplayWithoutAnswer | src/app/cli/offline.py:163-181 | without an answer the same replay makes all calls and then ends in the index error |
| OfflineModel.ScenarioFromMessage | src/app/cli/offline.py:206-225 | the first embedded scenario id, or the database timeout scenario |
| OfflineModel.FirstNamedFinds | src/app/cli/offline.py:206-225 | a message that contains an id and none before it selects that id |
| OfflineModel.PlanForExactly | src/app/cli/offline.py:265-280 | a routing request selects the plan stored under the first scenario it names, or under the default, and the first plan of all without one |
| OfflineModel.TextIsObserved | src/app/cli/offline.py:267-272 | the text of any part, a call apart, is among what routing looks at |
| OfflineModel.ProofModel.Scripted | src/app/cli/offline.py:270-287 | a routing request selects and remembers a plan, an answer request uses it, and no plan at all stops the iteration |
| OfflineModel.ProofModelRefinesPlans | src/app/cli/offline.py:249-291 | over any turns the multiplexing model gives the replies of the single-plan model for the plan of each turn, costs aside |
| SupportDesk.OwnedOrder | src/app/domain/support/service.py:26-36 | an order is returned if and only if it exists and belongs to the customer |
| SupportDesk.Refund | src/app/domain/support/service.py:51-71 | a refund succeeds if and only if the order is owned and delivered and the guarded update returned it |
| SupportDesk.SupportAgentService.GetOrderStatus | src/app/domain/agent/service.py:161-171 | only an owned order becomes the last order |
| SupportDesk.SupportAgentService.GetPolicy | src/app/domain/agent/service.py:173-188 | version and document are kept before the search, whose failure leaves the earlier hits |
| SupportDesk.SupportAgentService.ProposeRefund | src/app/domain/agent/service.py:190-237 | a proposal is made for an owned, delivered order only; each refusal records its reason |
| SupportDesk.SupportAgentService.ConfirmRefund | src/app/domain/agent/service.py:239-261 | a refund needs a pending proposal and the customer's confirmation, and uses the proposal up |
| SupportDesk.SupportAgentService.Escalate | src/app/domain/agent/service.py:263-275 | a ticket becomes the last escalation |
| SupportDesk.ConfirmKeepsGuards | src/app/domain/agent/service.py:239-261 | confirming keeps every guard: consent, proposal, ownership, and a refund carried out behind each confirmed order |
| SupportAgent.UsageTracker.Add | src/app/adapters/pydantic_ai_agent.py:129-138 | tokens add up, and a cost appears with the first run that reports one |
| SupportAgent.AgentDeps.CallTool | src/app/adapters/pydantic_ai_agent.py:471-590 | each tool records a success, refuses its known errors, counts a transient failure or lets the exception escape; a retry beyond the limit of the tool, and a request beyond that of the run, end the run |
| SupportAgent.BuildCitedPolicyAnswer | src/app/domain/retrieval/answers.py:28-52 | citations resolve all together or not at all; the first id without a usable hit decides how it fails, and an empty list fails |
| SupportAgent.ResolvesExactly | src/app/domain/retrieval/answers.py:38-50 | citations come if and only if every id has a hit with a version; validation fails if and only if the first bad id has a hit without one |
| SupportAgent.PydanticAISupportAgent.Handle | src/app/adapters/pydantic_ai_agent.py:228-286 | a turn on fresh objects ends in the response or the exception, the service state and the usage that the theorems below are about |
| SupportAgent.PydanticAISupportAgent.RunAnswer | src/app/adapters/pydantic_ai_agent.py:324-366 | an ended run or a missing draft gives the failure response and keeps its usage out; the refund after the draft and an invalid citation raise |
| SupportAgent.EndsByReplies | src/app/adapters/pydantic_ai_agent.py:471-590 | for each tool, how the answers of the dependencies make it end: success, which refusal, a retry, or which escape |
| SupportAgent.RunLeaves | src/app/domain/agent/service.py:161-275 | after any calls, the order, policy, hits, ticket, refusal reason and proposals of the service are those of the last calls that said something about them |
| SupportAgent.PydanticAISupportAgent.Assemble | src/app/adapters/pydantic_ai_agent.py:368-449 | for every draft the response is the one that the theorems below are about, and a policy draft records whether it was grounded |
| SupportAgent.RefundAnswers | src/app/adapters/pydantic_ai_agent.py:416-434 | a refund draft is answered as refunded when the refund is shown or was carried out after the draft; else with the standing proposal of the routed order; else as blocked with the last reason, or the missing confirmation |
| SupportAgent.OrderAnswers | src/app/adapters/pydantic_ai_agent.py:383-389 | an order draft is answered with the last order read for the customer or refunded, with a retry exactly when a call asked for one, or as not found |
| SupportAgent.PolicyAnswers | src/app/adapters/pydantic_ai_agent.py:390-415 | a policy draft is grounded if and only if the instructions are accepted, a policy call succeeded, the last policy read has the accepted version, and with a retriever every citation resolves |
| SupportAgent.EscalationAnswers | src/app/adapters/pydantic_ai_agent.py:435-442 | an escalation draft is answered with the last ticket made, and as blocked without one |
| SupportAgent.OtherAnswers | src/app/adapters/pydantic_ai_agent.py:228-355 | a turn fails if and only if it reaches no draft, and is handed over at once, with its ticket and reason, if and only if it is routed to escalation or misses its order |
| SupportAgent.TurnKeepsGuards | src/app/adapters/pydantic_ai_agent.py:228-366 | every turn, however it ends, keeps the guards of the service |
| SupportAgent.ConfirmedRefundsAreReal | src/app/adapters/pydantic_ai_agent.py:324-449 | a reported refund was confirmed in the request, proposed first and carried out for this customer and the routed order |
| SupportAgent.NoRefundWithoutConsent | src/app/domain/agent/service.py:239-261 | without the customer's confirmation no turn refunds anything, and no order is refunded that was not proposed |
| SupportAgent.TurnRefundsNeedProposals | src/app/domain/agent/service.py:212-261 | no turn carries out more refunds than it recorded successful proposals |
| SupportAgent.AutoConfirms | src/app/adapters/pydantic_ai_agent.py:357-365 | a standing proposal that the customer confirmed is refunded after the draft, and reported by a refund draft, unless the refund itself fails |
| SupportAgent.RaisesExactly | src/app/adapters/pydantic_ai_agent.py:228-413 | an exception leaves a turn if and only if the ticket of an immediate hand-over fails, the refund after the draft fails, or an otherwise grounded answer cites a chunk without a version |
| SupportAgent.CallsDecide | src/app/domain/agent/service.py:133-261 | after any calls: an order is confirmed, has a standing proposal, or is the one looked up last, if and only if the calls and their ends say so |
| SupportAgent.MaskedRefund | src/app/domain/agent/service.py:133-144 | a concrete turn whose carried-out refund is answered as blocked |
| SupportAgent.MaskedExactly | src/app/domain/agent/service.py:133-144 | a refund draft is answered as confirmed if and only if the calls confirmed the routed order and looked at no other order since they last looked at it, or the turn refunds a standing proposal by itself |
| SupportAgent.RecordsAreExact | src/app/adapters/pydantic_ai_agent.py:141-149 | recorded tool calls are the successful ones in order, and the retry count is the number of transient failures, the one that ends the run included |
| SupportAgent.SurvivesExactly | src/app/adapters/pydantic_ai_agent.py:59-61 | a run with one call per reply gets past all its calls if and only if requests suffice, no exception escapes, and no tool fails for the time being more often in a row than its retries |
| SupportAgent.TotalledSums | src/app/adapters/pydantic_ai_agent.py:122-138 | each count of a total is the sum of the counts, and a cost is there exactly when a run reported one |
| SupportAgent.UsageIsOfReturnedRuns | src/app/adapters/pydantic_ai_agent.py:122-138 | the tokens and the cost of a turn are the sums over the runs that returned output |
| SupportAgent.ContextBelongsToCustomer | src/app/adapters/pydantic_ai_agent.py:368-449 | orders and proposals in a response are the customer's own, and a proposal is for the routed order |
| SupportAgent.PolicyAnswersAreGrounded | src/app/adapters/pydantic_ai_agent.py:390-413 | a policy answer rests on the accepted version and a successful policy call, and its citations are chunks of the last retrieval |
| OfflineTurn.PlanAnswersExactly | src/app/cli/offline.py:163-181 | a plan whose calls run through the registered tools reaches its answer if and only if no exception escapes, only an order lookup is repeated and only once, and calls, retries and answer are at most eight requests; the tools then ran for the calls of the transcript, one request per call, retry and answer |
| OfflineTurn.TranscriptFollows | src/app/cli/offline.py:163-181 | the calls in the model's transcript are those the tools ran for, one by one |
| OfflineTurn.CarriesExactly | src/app/adapters/pydantic_ai_agent.py:211-221 | which tool runs for a call, by the registered function names and the order it names |
| OfflineTurn.ToolsOfIntents | src/app/domain/agent/service.py:42-47 | which tools each intent has |
| OfflineTurn.OrderStatusDespiteTimeouts | src/app/adapters/pydantic_ai_agent.py:471-491 | for every number of failed lookups: after at most one the turn reports the order, with a retry exactly after one; after two or more it answers that it failed, with two retries counted and no order read |
| DatabaseUrl.LastValueCounts | src/app/config.py:99 | of a repeated query key the last value counts |
| DatabaseUrl.UseAsyncpgDriver | src/app/config.py:91-105 | the loop and the dictionary operations take out `sslmode` and the channel binding, store the mode under `ssl`, and give a lower-case PostgreSQL scheme the asyncpg driver |
| DatabaseUrl.AsyncpgMeaning | src/app/config.py:91-105 | under each query key what asyncpg gets: the SSL mode under `ssl`, no channel binding, all else as it was; and the driver for PostgreSQL in lower case |
| DatabaseUrl.PsycopgUrl | src/app/api/workflow_router.py:24-33 | the same moves in the other direction, with the driver taken off the lowered scheme |
| DatabaseUrl.PsycopgMeaning | src/app/api/workflow_router.py:24-33 | under each query key what psycopg gets: the SSL mode under `sslmode`, no channel binding, all else as it was; and the scheme without the driver |
| DatabaseUrl.AsyncpgIdempotentExactly | src/app/config.py:91-105 | rewriting twice is rewriting once if and only if the scheme is not PostgreSQL written with capitals |
| DatabaseUrl.PsycopgIdempotent | src/app/api/workflow_router.py:24-33 | the rewriting back is idempotent for every URL |
| DatabaseUrl.PsycopgAfterAsyncpg | src/app/api/workflow_router.py:24-33 | after both the scheme is `postgresql` again, untouched keys keep values and order, the channel binding is gone, and the SSL mode follows under its own name |
| DatabaseUrl.OtherKeysSurvive | src/app/api/workflow_router.py:24-33 | every other key has the value the dictionary of the original query gives it |
| DatabaseUrl.AsyncpgRestoredExactly | src/app/config.py:91-105 | going to psycopg and back restores a stored URL if and only if its scheme was settled and `ssl`, if any, came last |
| TimelineText.EscapeValue | src/app/cli/simulate.py:121-135 | the loop computes the escape of the whole text, character by character |
| TimelineText.EscapeReads | src/app/cli/simulate.py:121-135 | every character can be read off its escape, and a printable one stands for itself |
| TimelineText.ShortIsSafe | src/app/cli/simulate.py:138-143 | a short value has at most 160 characters, all printable, with single blanks between words and no line break |
| TimelineText.ShortIdempotent | src/app/cli/simulate.py:138-143 | shortening twice is shortening once |
| TimelineText.ShortExactly | src/app/cli/simulate.py:138-143 | a text is its own short value if and only if it is safe |
| TimelineText.ShortKeepsWords | src/app/cli/simulate.py:138-143 | a printable text of at most 160 characters keeps its words in order; a longer one keeps its first 159 characters and an ellipsis |
| TimelineText.FitLength | src/app/cli/simulate.py:146-150 | the exact length of a fitted text, also for widths below one |
| TimelineText.PrintLine | src/app/cli/simulate.py:226-249 | the line built piece by piece is the timeline line |
| TimelineText.LineReadsBack | src/app/cli/simulate.py:226-249 | number, kind and source can be read off the columns of a line, and the rest is the short text, or as much as fits with an ellipsis |
| TimelineText.TextMeaning | src/app/cli/simulate.py:156-245 | the text shown, with the note of a model event, and the columns left for it |
| TimelineText.MarkersTell | src/app/cli/simulate.py:100-113 | the marker tells the kinds apart, except the two speakers and the two sides of a tool call |
| TimelineText.LineBound | src/app/cli/simulate.py:226-254 | a line is at most as long as the larger of the console width and its prefix plus 28, and the exact condition for an overflow |

## Left out

- HTTP routing, dependency wiring, authentication, sessions and error mapping; Textual and Rich widgets,
  layout, focus and colours.
- The identity map of a database session: each read is taken to see what is committed at that moment.
- JSON encoding: a payload is one line of text. Byte order mark, UTF-8 decoding and the `retry` field of
  the event stream format are not modelled; the server sends none of them.
- Times, latencies and delays between polls. Costs are real numbers without rounding.
- `EventDelivery.ExactlyOnce`: assumes writers that append in order; `BridgedDelivery` proves exactly when the bridge is such a writer, and `EventDelivery.HeardExactlyWhenInTime` is about any writers.
- `BridgeUplink.InvestigationIntake.RecordEvents`: requests are handled one at a time. What is saved of a summary or a heartbeat beside the events is not modelled, nor is the count of rows in the reply, which the bridge does not read.
- Events of an investigation after its bridge process restarts with a fresh counter.
- Unicode tables: lower case is ASCII only, and which characters are printable is a table with three
  stated properties. A column is one character; double-width characters are not modelled.
- The queues of Textual: edits of the search field in the timeline and presses in the wizard wait in any
  order of handling and typing; which of these orders the framework's scheduling rules out is not modelled.
- `Timeline.SimulatorApp.ReceiveEvent`: its precondition that an event is new to the log is what `EventFactory` guarantees, not something the handler checks.
- `Timeline.SimulatorApp.RowHighlighted`: a highlight is handled at once; one that waits while the table is rendered anew carries the old row number.
- `SetupWizard.EveryPathIsSound`: a scenario is picked at the start, or later if its own environment is known.
- The choice of flow plugin at launch, the preflight checks and the runtime lookup: their issues are an
  input of the launch.
- The listener of a recorder is taken not to raise. A write names an open span; writes to a span after
  its end are not modelled.
- OpenTelemetry and exporter internals: a provider is its processors and labels, and shutting it down is
  a record that it happened.
- Pydantic AI: an agent run is the sequence of tool calls it makes, grouped by model reply, with the
  dependency answers as inputs, and the output it returns or fails to return. Tool calls of one reply
  happen one after another. Its limits are those the agent sets: requests of a run, retries of a tool in
  a row. Not among the calls are those of a tool that is not registered for the intent, and those whose
  arguments the framework rejects, like a planned `_propose_refund` without its reason.
- A refund that the database carried out although its call failed is not counted as carried out.
- Fault scripts and the choice of reference plans by scenario and side (`offline_plan`), which are tables.
- `DatabaseUrl.UseAsyncpgDriver`: works on a scheme, query pairs and the rest of the text; percent-encoding, empty authorities and white space before the scheme are not modelled.
- Experiments, suites, comparison, retrieval ranking, workflow checkpoints and the other commands.
