/** The setup wizard of the terminal simulator: seven questions, asked one at a time, that end in a run
    request. */
module SetupWizard {
  import opened Wrappers
  import opened PythonText

  // ---------------------------------------------------------------------------
  // The catalog and the form
  // ---------------------------------------------------------------------------

  datatype Environment = Environment(title: string, artifactRoot: string)

  /** A catalogued scenario; loading checks the range of its turn limit. */
  datatype Scenario = Scenario(title: string, plugin: string, persona: string, script: string, goal: string,
                               maxTurns: int, environmentProfile: string)

  predicate Loaded(sc: Scenario) {
    TurnsInRange(sc.maxTurns)
  }

  predicate TurnsInRange(n: int) {
    1 <= n <= 50
  }

  datatype Step = ScenarioStep | PersonaStep | RequestStep | GoalStep | TurnsStep | ProfileStep | ReviewStep

  const SETUP_STEPS: seq<Step> :=
    [ScenarioStep, PersonaStep, RequestStep, GoalStep, TurnsStep, ProfileStep, ReviewStep]

  /** `_SETUP_STEPS.index(step)`. */
  function IndexOf(step: Step): (i: nat)
    ensures i < |SETUP_STEPS| && SETUP_STEPS[i] == step
    ensures forall j :: 0 <= j < |SETUP_STEPS| && SETUP_STEPS[j] == step ==> j == i
  {
    match step
    case ScenarioStep => 0
    case PersonaStep => 1
    case RequestStep => 2
    case GoalStep => 3
    case TurnsStep => 4
    case ProfileStep => 5
    case ReviewStep => 6
  }

  datatype Notice = NoNotice | TurnsNotice | ProfileNotice | PreflightNotice(issue: string)

  /** What the review shows; an empty text is shown as "not set". */
  datatype Card = Card(title: string, persona: string, script: string, goal: string, turns: string, profile: string)

  function ShownText(text: string): string {
    if text == "" then "not set" else text
  }

  datatype FlowRequest = FlowRequest(plugin: string, maxTurns: int, environment: Environment,
                                     persona: Option<string>, script: Option<string>, goal: Option<string>)

  /** `value or None`. */
  function Given(text: string): Option<string> {
    if text == "" then None else Some(text)
  }

  datatype Form = Form(step: Step, selected: Option<Scenario>, persona: string, script: string, goal: string,
                       turns: string, profile: string, card: Option<Card>, notice: Notice,
                       launched: Option<FlowRequest>)

  /** What the wizard works with: the loaded scenarios, the environment profiles by id (ids are not
      empty), and whether a registry of flows is there. */
  datatype Project = Project(scenarios: seq<Scenario>, catalog: map<string, Environment>, registered: bool) {
    predicate Valid() {
      "" !in catalog && forall i :: 0 <= i < |scenarios| ==> Loaded(scenarios[i])
    }
  }

  predicate ValidTurns(text: string) {
    ParseInt(text).Some? && TurnsInRange(ParseInt(text).value)
  }

  // ---------------------------------------------------------------------------
  // Actions
  // ---------------------------------------------------------------------------

  datatype Action =
    | Highlight(row: int)
    | Edit(text: string)
    | Continue
    | Back
    | Launch(issues: seq<string>)

  datatype Crash = IndexError

  function Reviewed(form: Form): Form {
    if form.selected.None? then form
    else
      form.(card := Some(Card(form.selected.value.title, ShownText(form.persona), ShownText(form.script),
                              ShownText(form.goal), form.turns, form.profile)))
  }

  /** `_set_setup_step`. */
  function AtStep(form: Form, step: Step): Form {
    var moved := form.(step := step, notice := NoNotice);
    if step.ReviewStep? then Reviewed(moved) else moved
  }

  /** `_load_scenario_defaults`. */
  function WithDefaults(form: Form, sc: Scenario): Form {
    Reviewed(form.(selected := Some(sc), persona := sc.persona, script := sc.script, goal := sc.goal,
                   turns := Decimal(sc.maxTurns), profile := sc.environmentProfile))
  }

  function Mounted(project: Project): Form {
    var blank := Form(ScenarioStep, None, "", "", "", "", "", None, NoNotice, None);
    AtStep(if project.scenarios == [] then blank else WithDefaults(blank, project.scenarios[0]), ScenarioStep)
  }

  /** The message of `_validate_setup_step`, which looks at the shown step only. */
  function Complaint(project: Project, form: Form): Notice {
    if form.step.TurnsStep? && !ValidTurns(form.turns) then TurnsNotice
    else if form.step.ProfileStep? && form.profile !in project.catalog then ProfileNotice
    else NoNotice
  }

  /** A launch with the findings of the preflight checks. */
  function Launched(project: Project, form: Form, issues: seq<string>): Form {
    if form.selected.None? || !project.registered then form
    else
      var sc := form.selected.value;
      var profile := if form.profile == "" then sc.environmentProfile else form.profile;
      if !ValidTurns(form.turns) then AtStep(form, TurnsStep).(notice := TurnsNotice)
      else if profile !in project.catalog then AtStep(form, ProfileStep).(notice := ProfileNotice)
      else if issues != [] then form.(notice := PreflightNotice(issues[0]))
      else
        form.(launched := Some(FlowRequest(sc.plugin, ParseInt(form.turns).value, project.catalog[profile],
                                           Given(form.persona), Given(form.script), Given(form.goal))))
  }

  function Act(project: Project, form: Form, action: Action): Result<Form, Crash> {
    match action
    case Highlight(row) =>
      Ok(if 0 <= row < |project.scenarios| then WithDefaults(form, project.scenarios[row]) else form)
    case Edit(text) =>
      Ok(match form.step
         case PersonaStep => form.(persona := text)
         case RequestStep => form.(script := text)
         case GoalStep => form.(goal := text)
         case TurnsStep => form.(turns := text)
         case ProfileStep => form.(profile := text)
         case _ => form)
    case Continue =>
      var checked := form.(notice := Complaint(project, form));
      if checked.notice != NoNotice then Ok(checked)
      else if IndexOf(form.step) + 1 >= |SETUP_STEPS| then Err(IndexError)
      else Ok(AtStep(checked, SETUP_STEPS[IndexOf(form.step) + 1]))
    case Back =>
      Ok(if IndexOf(form.step) > 0 then AtStep(form, SETUP_STEPS[IndexOf(form.step) - 1]) else form)
    case Launch(issues) => Ok(Launched(project, form, issues))
  }

  /** The controls on screen: "continue" is hidden at the review, "back" at the start, "start
      simulation" elsewhere than at the review; a scenario is picked at the start, or anywhere if its
      own environment is known; after a launch the wizard is gone. */
  predicate Offered(project: Project, form: Form, action: Action) {
    && form.launched.None?
    && match action
       case Highlight(row) =>
         form.step.ScenarioStep? ||
         (0 <= row < |project.scenarios| && project.scenarios[row].environmentProfile in project.catalog)
       case Edit(_) => true
       case Continue => !form.step.ReviewStep?
       case Back => !form.step.ScenarioStep?
       case Launch(_) => form.step.ReviewStep?
  }

  // ---------------------------------------------------------------------------
  // What every reachable form keeps
  // ---------------------------------------------------------------------------

  /** Past the turns question the limit is valid; at the review the profile is catalogued and the card
      shows the current answers; a launched request is valid and is the reviewed one. */
  predicate Sound(project: Project, form: Form) {
    && (IndexOf(form.step) > IndexOf(TurnsStep) ==> ValidTurns(form.turns))
    && (form.step.ReviewStep? ==> form.profile in project.catalog && (form.selected.Some? ==> Reviewed(form) == form))
    && (form.launched.Some? ==>
          form.step.ReviewStep? && form.card.Some? && Honours(project, form.launched.value, form.card.value))
  }

  /** The request runs what the card shows. */
  predicate Honours(project: Project, request: FlowRequest, card: Card) {
    && TurnsInRange(request.maxTurns) && ParseInt(card.turns) == Some(request.maxTurns)
    && card.profile in project.catalog && request.environment == project.catalog[card.profile]
    && card.persona == ShownText(if request.persona.Some? then request.persona.value else "")
    && card.script == ShownText(if request.script.Some? then request.script.value else "")
    && card.goal == ShownText(if request.goal.Some? then request.goal.value else "")
  }

  lemma DefaultsSound(project: Project, form: Form, sc: Scenario)
    requires Sound(project, form) && form.launched.None? && Loaded(sc)
    requires form.step.ScenarioStep? || sc.environmentProfile in project.catalog
    ensures Sound(project, WithDefaults(form, sc))
  {
    var text := Decimal(sc.maxTurns);
    DecimalRoundTrip(sc.maxTurns);
    assert ValidTurns(text);
  }

  lemma LaunchSound(project: Project, form: Form, issues: seq<string>)
    requires project.Valid() && Sound(project, form) && form.launched.None? && form.step.ReviewStep?
    ensures Sound(project, Launched(project, form, issues))
    ensures Launched(project, form, issues).step == ReviewStep
    ensures Launched(project, form, issues).launched.Some?
       <==> form.selected.Some? && project.registered && issues == []
  {
  }

  /** "Continue" indexes past the last step exactly at the review. */
  lemma ContinueCrashesAtReviewOnly(project: Project, form: Form)
    ensures Act(project, form, Continue).Err? <==> form.step.ReviewStep?
  {
  }

  /** One offered action neither crashes nor breaks what a form keeps. */
  lemma ActSound(project: Project, form: Form, action: Action)
    requires project.Valid() && Sound(project, form) && Offered(project, form, action)
    ensures Act(project, form, action).Ok? && Sound(project, Act(project, form, action).value)
  {
    match action
    case Highlight(row) =>
      if 0 <= row < |project.scenarios| {
        DefaultsSound(project, form, project.scenarios[row]);
      }
    case Edit(_) =>
    case Continue =>
    case Back =>
    case Launch(issues) => LaunchSound(project, form, issues);
  }

  function Play(project: Project, form: Form, actions: seq<Action>): Result<Form, Crash>
    decreases actions
  {
    if actions == [] then Ok(form)
    else
      var next := Act(project, form, actions[0]);
      if next.Err? then next else Play(project, next.value, actions[1..])
  }

  predicate AllOffered(project: Project, form: Form, actions: seq<Action>)
    decreases actions
  {
    actions == [] ||
    (Offered(project, form, actions[0]) &&
     (Act(project, form, actions[0]).Ok? ==> AllOffered(project, Act(project, form, actions[0]).value, actions[1..])))
  }

  lemma {:induction false} PlaySound(project: Project, form: Form, actions: seq<Action>)
    requires project.Valid() && Sound(project, form) && AllOffered(project, form, actions)
    ensures Play(project, form, actions).Ok? && Sound(project, Play(project, form, actions).value)
    decreases actions
  {
    if actions != [] {
      ActSound(project, form, actions[0]);
      PlaySound(project, Act(project, form, actions[0]).value, actions[1..]);
    }
  }

  /** Whatever path is taken through back, continue, reloading and failed launches, the wizard never
      crashes and every form it shows is sound; in particular a launched request has a valid turn
      limit and a catalogued environment, and runs what the review showed. */
  lemma EveryPathIsSound(project: Project, actions: seq<Action>)
    requires project.Valid() && AllOffered(project, Mounted(project), actions)
    ensures Play(project, Mounted(project), actions).Ok?
    ensures Sound(project, Play(project, Mounted(project), actions).value)
  {
    PlaySound(project, Mounted(project), actions);
  }

  /** At a reachable review a launch is never sent back to a question: it stays, with the first issue
      shown, or starts the run. */
  lemma ReviewedLaunchStays(project: Project, actions: seq<Action>, issues: seq<string>)
    requires project.Valid() && AllOffered(project, Mounted(project), actions + [Launch(issues)])
    requires Play(project, Mounted(project), actions).Ok?
    requires Offered(project, Play(project, Mounted(project), actions).value, Launch(issues))
    ensures var before := Play(project, Mounted(project), actions).value;
            var after := Launched(project, before, issues);
            after.step == ReviewStep
            && (after.launched.Some? <==> before.selected.Some? && project.registered && issues == [])
  {
    OfferedPrefix(project, Mounted(project), actions, Launch(issues));
    PlaySound(project, Mounted(project), actions);
    LaunchSound(project, Play(project, Mounted(project), actions).value, issues);
  }

  lemma {:induction false} OfferedPrefix(project: Project, form: Form, actions: seq<Action>, last: Action)
    requires AllOffered(project, form, actions + [last])
    ensures AllOffered(project, form, actions)
    decreases actions
  {
    if actions != [] {
      assert (actions + [last])[0] == actions[0] && (actions + [last])[1..] == actions[1..] + [last];
      if Act(project, form, actions[0]).Ok? {
        OfferedPrefix(project, Act(project, form, actions[0]).value, actions[1..], last);
      }
    }
  }

  // ---------------------------------------------------------------------------
  // Presses that wait for their handlers
  // ---------------------------------------------------------------------------

  /** What happens to the screen: a control is used, which queues its message; the oldest message is
      handled; a text is typed, which the input takes at once. */
  datatype Event = Press(action: Action) | Handle | Type(text: string)

  datatype Screen = Screen(form: Form, queue: seq<Action>)

  function Do(project: Project, screen: Screen, event: Event): Result<Screen, Crash> {
    match event
    case Press(action) => Ok(screen.(queue := screen.queue + [action]))
    case Type(text) => Shown(Act(project, screen.form, Edit(text)), screen.queue)
    case Handle =>
      if screen.queue == [] then Ok(screen)
      else Shown(Act(project, screen.form, screen.queue[0]), screen.queue[1..])
  }

  function Shown(form: Result<Form, Crash>, queue: seq<Action>): Result<Screen, Crash> {
    if form.Ok? then Ok(Screen(form.value, queue)) else Err(form.error)
  }

  function Run(project: Project, screen: Screen, events: seq<Event>): Result<Screen, Crash>
    decreases |events|
  {
    if events == [] then Ok(screen)
    else
      var next := Do(project, screen, events[0]);
      if next.Err? then next else Run(project, next.value, events[1..])
  }

  /** The actions in the order in which they take effect. */
  function Carried(queue: seq<Action>, events: seq<Event>): seq<Action>
    decreases |events|
  {
    if events == [] then []
    else
      match events[0]
      case Press(action) => Carried(queue + [action], events[1..])
      case Type(text) => [Edit(text)] + Carried(queue, events[1..])
      case Handle =>
        if queue == [] then Carried(queue, events[1..])
        else [queue[0]] + Carried(queue[1..], events[1..])
  }

  lemma PlayCons(project: Project, form: Form, first: Action, later: seq<Action>)
    ensures Play(project, form, [first] + later)
         == var next := Act(project, form, first); if next.Err? then next else Play(project, next.value, later)
  {
    assert ([first] + later)[1..] == later;
  }

  /** A screen with a queue plays the actions in the order in which they are handled. */
  lemma {:induction false} RunIsPlay(project: Project, screen: Screen, events: seq<Event>)
    ensures var played := Play(project, screen.form, Carried(screen.queue, events));
            match Run(project, screen, events)
            case Ok(after) => played == Ok(after.form)
            case Err(crash) => played == Err(crash)
    decreases |events|
  {
    if events != [] {
      var next := Do(project, screen, events[0]);
      if next.Ok? {
        RunIsPlay(project, next.value, events[1..]);
      }
      match events[0]
      case Press(_) =>
      case Type(text) => PlayCons(project, screen.form, Edit(text), Carried(screen.queue, events[1..]));
      case Handle =>
        if screen.queue != [] {
          PlayCons(project, screen.form, screen.queue[0], Carried(screen.queue[1..], events[1..]));
        }
    }
  }

  /** "Continue" takes effect at the review after the first `k` actions. */
  predicate ContinuesAtReview(project: Project, form: Form, actions: seq<Action>, k: nat)
    requires k < |actions|
  {
    var before := Play(project, form, actions[..k]);
    actions[k].Continue? && before.Ok? && before.value.step.ReviewStep?
  }

  lemma {:induction false} PlayCrashesExactly(project: Project, form: Form, actions: seq<Action>)
    ensures Play(project, form, actions).Err?
       <==> exists k :: 0 <= k < |actions| && ContinuesAtReview(project, form, actions, k)
    decreases |actions|
  {
    if actions != [] {
      var next, later := Act(project, form, actions[0]), actions[1..];
      assert actions[..0] == [];
      assert ContinuesAtReview(project, form, actions, 0) <==> next.Err?;
      if next.Ok? {
        PlayCrashesExactly(project, next.value, later);
        forall k | 0 <= k < |later|
          ensures ContinuesAtReview(project, next.value, later, k) <==> ContinuesAtReview(project, form, actions, k + 1)
        {
          assert actions[..k + 1] == [actions[0]] + later[..k];
          PlayCons(project, form, actions[0], later[..k]);
        }
        if k :| 0 <= k < |actions| && ContinuesAtReview(project, form, actions, k) {
          assert ContinuesAtReview(project, next.value, later, k - 1);
        }
      }
    }
  }

  /** However presses and their handling interleave, the wizard crashes exactly when a press of "continue"
      is handled while the review is shown. */
  lemma QueueCrashesExactly(project: Project, events: seq<Event>)
    ensures Run(project, Screen(Mounted(project), []), events).Err? <==>
              exists k :: 0 <= k < |Carried([], events)|
                          && ContinuesAtReview(project, Mounted(project), Carried([], events), k)
  {
    RunIsPlay(project, Screen(Mounted(project), []), events);
    PlayCrashesExactly(project, Mounted(project), Carried([], events));
  }

  function Continues(n: nat): seq<Action> {
    if n == 0 then [] else [Continue] + Continues(n - 1)
  }

  /** The questions from the shown one on have valid answers. */
  predicate Answerable(project: Project, form: Form) {
    && (IndexOf(form.step) <= IndexOf(TurnsStep) ==> ValidTurns(form.turns))
    && (IndexOf(form.step) <= IndexOf(ProfileStep) ==> form.profile in project.catalog)
  }

  /** Presses of "continue" that wait in a row crash the wizard exactly when they are more than the
      questions left and no answer stops them: one too many is enough, two at the last question. */
  lemma {:induction false} ContinuesCrashExactly(project: Project, form: Form, n: nat)
    ensures Play(project, form, Continues(n)).Err?
       <==> n > IndexOf(ReviewStep) - IndexOf(form.step) && Answerable(project, form)
    decreases n
  {
    if n > 0 {
      var next := Act(project, form, Continue);
      PlayCons(project, form, Continue, Continues(n - 1));
      if next.Ok? {
        ContinuesCrashExactly(project, next.value, n - 1);
      }
    }
  }

  /** Two presses at the last question, both offered when they are made. */
  lemma TwoPressesCrash(project: Project, form: Form)
    requires form.step.ProfileStep? && form.launched.None? && form.profile in project.catalog
    ensures Offered(project, form, Continue)
    ensures Run(project, Screen(form, []), [Press(Continue), Press(Continue), Handle, Handle]) == Err(IndexError)
  {
    var first := Act(project, form, Continue).value;
    var events := [Press(Continue), Press(Continue), Handle, Handle];
    var waiting := Screen(form, [Continue, Continue]);
    assert events[1..] == [Press(Continue), Handle, Handle] && events[1..][1..] == [Handle, Handle];
    assert [] + [Continue] == [Continue] && [Continue] + [Continue] == [Continue, Continue];
    assert Do(project, waiting, Handle) == Ok(Screen(first, [Continue]));
    assert [Handle, Handle][1..] == [Handle];
    assert Run(project, waiting, [Handle, Handle]) == Run(project, Screen(first, [Continue]), [Handle]);
  }

  /** Every press is offered when it is made, and none is made while another waits. */
  predicate Prompt(project: Project, screen: Screen, events: seq<Event>)
    decreases |events|
  {
    events == [] ||
    (var next := Do(project, screen, events[0]);
     && (match events[0]
         case Press(action) => screen.queue == [] && Offered(project, screen.form, action) && !action.Edit?
         case Type(_) => screen.form.launched.None?
         case Handle => true)
     && (next.Ok? ==> Prompt(project, next.value, events[1..])))
  }

  /** What is waiting is still offered. */
  predicate Waiting(project: Project, screen: Screen) {
    && |screen.queue| <= 1
    && (screen.queue != [] ==> Offered(project, screen.form, screen.queue[0]) && !screen.queue[0].Edit?)
  }

  lemma {:induction false} PromptIsOffered(project: Project, screen: Screen, events: seq<Event>)
    requires Waiting(project, screen) && Prompt(project, screen, events)
    ensures AllOffered(project, screen.form, Carried(screen.queue, events))
    decreases |events|
  {
    if events != [] {
      var next := Do(project, screen, events[0]);
      if next.Ok? {
        PromptIsOffered(project, next.value, events[1..]);
      }
      match events[0]
      case Press(_) =>
      case Type(text) => OfferedCons(project, screen.form, Edit(text), Carried(screen.queue, events[1..]));
      case Handle =>
        if screen.queue != [] {
          OfferedCons(project, screen.form, screen.queue[0], Carried(screen.queue[1..], events[1..]));
        }
    }
  }

  lemma OfferedCons(project: Project, form: Form, first: Action, later: seq<Action>)
    ensures AllOffered(project, form, [first] + later)
       <==> && Offered(project, form, first)
            && (Act(project, form, first).Ok? ==> AllOffered(project, Act(project, form, first).value, later))
  {
    assert ([first] + later)[1..] == later;
  }

  /** If no press is made while another waits, the wizard does not crash, and every form is sound, whatever
      is typed in between. */
  lemma PromptPathIsSound(project: Project, events: seq<Event>)
    requires project.Valid() && Prompt(project, Screen(Mounted(project), []), events)
    ensures var after := Run(project, Screen(Mounted(project), []), events);
            after.Ok? && Sound(project, after.value.form)
  {
    var screen := Screen(Mounted(project), []);
    PromptIsOffered(project, screen, events);
    EveryPathIsSound(project, Carried([], events));
    RunIsPlay(project, screen, events);
  }

  /** The request of a launch is one the simulator can run. */
  predicate Runnable(project: Project, form: Form) {
    form.launched.Some? ==>
      1 <= form.launched.value.maxTurns <= 50 && form.launched.value.environment in project.catalog.Values
  }

  lemma {:induction false} PlayLaunchesRunnable(project: Project, form: Form, actions: seq<Action>)
    requires Runnable(project, form)
    ensures Play(project, form, actions).Ok? ==> Runnable(project, Play(project, form, actions).value)
    decreases actions
  {
    if actions != [] {
      var next := Act(project, form, actions[0]);
      if next.Ok? {
        PlayLaunchesRunnable(project, next.value, actions[1..]);
      }
    }
  }

  /** Whatever waits in the queue, a launched request has a valid turn limit and a catalogued
      environment. */
  lemma QueuedLaunchIsRunnable(project: Project, events: seq<Event>)
    requires Run(project, Screen(Mounted(project), []), events).Ok?
    ensures Runnable(project, Run(project, Screen(Mounted(project), []), events).value.form)
  {
    RunIsPlay(project, Screen(Mounted(project), []), events);
    PlayLaunchesRunnable(project, Mounted(project), Carried([], events));
  }

  // ---------------------------------------------------------------------------
  // What a launch runs
  // ---------------------------------------------------------------------------

  lemma {:induction false} PlayConcat(project: Project, form: Form, a: seq<Action>, b: seq<Action>)
    ensures Play(project, form, a + b)
         == var half := Play(project, form, a); if half.Err? then half else Play(project, half.value, b)
    decreases a
  {
    if a == [] {
      assert a + b == b;
    } else {
      assert (a + b)[0] == a[0] && (a + b)[1..] == a[1..] + b;
      var next := Act(project, form, a[0]);
      if next.Ok? {
        PlayConcat(project, next.value, a[1..], b);
      }
    }
  }

  /** The same answers at the step `n` further on. */
  ghost predicate Further(form: Form, n: nat, after: Form) {
    && IndexOf(after.step) == IndexOf(form.step) + n && after.launched == form.launched
    && after.selected == form.selected && after.persona == form.persona && after.script == form.script
    && after.goal == form.goal && after.turns == form.turns && after.profile == form.profile
  }

  lemma {:induction false} ContinuesGoOn(project: Project, form: Form, n: nat)
    requires Answerable(project, form) && IndexOf(form.step) + n <= IndexOf(ReviewStep)
    ensures Play(project, form, Continues(n)).Ok? && Further(form, n, Play(project, form, Continues(n)).value)
    decreases n
  {
    if n > 0 {
      var next := Act(project, form, Continue);
      PlayCons(project, form, Continue, Continues(n - 1));
      ContinuesGoOn(project, next.value, n - 1);
    }
  }

  /** The texts of a request, where no text means no such part. */
  predicate Asks(request: FlowRequest, persona: string, script: string, goal: string) {
    && (if persona == "" then request.persona == None else request.persona == Some(persona))
    && (if script == "" then request.script == None else request.script == Some(script))
    && (if goal == "" then request.goal == None else request.goal == Some(goal))
  }

  /** A scenario that is picked and launched without a change runs as the catalog has it. */
  lemma LaunchAsCatalogued(project: Project, row: nat)
    requires project.Valid() && project.registered && row < |project.scenarios|
    requires project.scenarios[row].environmentProfile in project.catalog
    ensures var sc := project.scenarios[row];
            var r := Play(project, Mounted(project), [Highlight(row)] + (Continues(6) + [Launch([])]));
            && r.Ok? && r.value.launched.Some? && r.value.launched.value.plugin == sc.plugin
            && r.value.launched.value.maxTurns == sc.maxTurns
            && r.value.launched.value.environment == project.catalog[sc.environmentProfile]
            && Asks(r.value.launched.value, sc.persona, sc.script, sc.goal)
            && r.value.card == Some(Card(sc.title, if sc.persona == "" then "not set" else sc.persona,
                                         if sc.script == "" then "not set" else sc.script,
                                         if sc.goal == "" then "not set" else sc.goal,
                                         Decimal(sc.maxTurns), sc.environmentProfile))
  {
    var sc, start := project.scenarios[row], Mounted(project);
    var picked := WithDefaults(start, sc);
    DefaultsAnswer(project, start, sc);
    PlayCons(project, start, Highlight(row), Continues(6) + [Launch([])]);
    ContinuesGoOn(project, picked, 6);
    PlayConcat(project, picked, Continues(6), [Launch([])]);
    var review := Play(project, picked, Continues(6)).value;
    LaunchRuns(project, review, sc.maxTurns);
    PlayKeepsCard(project, picked, Continues(6));
    PlayCons(project, review, Launch([]), []);
    assert [Launch([])] + [] == [Launch([])];
  }

  lemma DefaultsAnswer(project: Project, form: Form, sc: Scenario)
    requires Loaded(sc) && sc.environmentProfile in project.catalog
    ensures var f := WithDefaults(form, sc);
            && Answerable(project, f) && ValidTurns(f.turns) && ParseInt(f.turns) == Some(sc.maxTurns)
            && f.selected == Some(sc) && f.persona == sc.persona && f.script == sc.script && f.goal == sc.goal
            && f.profile == sc.environmentProfile && f.step == form.step && f.launched == form.launched
  {
    DecimalRoundTrip(sc.maxTurns);
  }

  /** With valid answers the launch runs what they say. */
  lemma LaunchRuns(project: Project, form: Form, turns: int)
    requires project.Valid() && project.registered && form.selected.Some?
    requires TurnsInRange(turns) && ParseInt(form.turns) == Some(turns) && form.profile in project.catalog
    ensures var r := Act(project, form, Launch([]));
            && r.Ok? && r.value.launched.Some? && r.value.launched.value.plugin == form.selected.value.plugin
            && r.value.launched.value.maxTurns == turns
            && r.value.launched.value.environment == project.catalog[form.profile]
            && Asks(r.value.launched.value, form.persona, form.script, form.goal)
  {
  }

  /** An answer is typed over the default, and "continue" goes on. */
  function Answer(text: string): seq<Action> {
    [Edit(text), Continue]
  }

  lemma AnswerGoesOn(project: Project, form: Form, text: string, edited: Form)
    requires 1 <= IndexOf(form.step) <= 5 && Act(project, form, Edit(text)) == Ok(edited)
    requires Complaint(project, edited) == NoNotice
    ensures Play(project, form, Answer(text)).Ok? && Further(edited, 1, Play(project, form, Answer(text)).value)
  {
    PlayCons(project, form, Edit(text), [Continue]);
    PlayCons(project, edited, Continue, []);
    assert [Edit(text)] + [Continue] == Answer(text) && [Continue] + [] == [Continue];
  }

  /** What is typed at each question is what the launch runs. */
  lemma LaunchAsTyped(project: Project, form: Form, persona: string, script: string, goal: string, turns: string,
                      profile: string)
    requires project.Valid() && project.registered && form.step.PersonaStep? && form.selected.Some?
    requires ParseInt(turns).Some? && 1 <= ParseInt(turns).value <= 50 && profile in project.catalog
    ensures var typed := Answer(persona) + (Answer(script) + (Answer(goal) + (Answer(turns) + Answer(profile))));
            var r := Play(project, form, typed + [Launch([])]);
            && r.Ok? && r.value.launched.Some? && r.value.launched.value.plugin == form.selected.value.plugin
            && ParseInt(turns) == Some(r.value.launched.value.maxTurns)
            && r.value.launched.value.environment == project.catalog[profile]
            && Asks(r.value.launched.value, persona, script, goal)
  {
    var f1 := AnswerStep(project, form, persona);
    var f2 := AnswerStep(project, f1, script);
    var f3 := AnswerStep(project, f2, goal);
    var f4 := AnswerStep(project, f3, turns);
    var f5 := AnswerStep(project, f4, profile);
    LaunchRuns(project, f5, ParseInt(turns).value);
    InTurn(project, form, f1, f2, f3, f4, f5, Answer(persona), Answer(script), Answer(goal), Answer(turns),
           Answer(profile), Launch([]));
  }

  lemma InTurn(project: Project, form: Form, f1: Form, f2: Form, f3: Form, f4: Form, f5: Form, a: seq<Action>,
               b: seq<Action>, c: seq<Action>, d: seq<Action>, e: seq<Action>, last: Action)
    requires Play(project, form, a) == Ok(f1) && Play(project, f1, b) == Ok(f2) && Play(project, f2, c) == Ok(f3)
    requires Play(project, f3, d) == Ok(f4) && Play(project, f4, e) == Ok(f5) && Act(project, f5, last).Ok?
    ensures Play(project, form, a + (b + (c + (d + e))) + [last]) == Act(project, f5, last)
  {
    PlayConcat(project, f3, d, e);
    PlayConcat(project, f2, c, d + e);
    PlayConcat(project, f1, b, c + (d + e));
    PlayConcat(project, form, a, b + (c + (d + e)));
    PlayConcat(project, form, a + (b + (c + (d + e))), [last]);
    PlayCons(project, f5, last, []);
    assert [last] + [] == [last];
  }

  lemma AnswerStep(project: Project, form: Form, text: string) returns (next: Form)
    requires 1 <= IndexOf(form.step) <= 5
    requires form.step.TurnsStep? ==> ValidTurns(text)
    requires form.step.ProfileStep? ==> text in project.catalog
    ensures Play(project, form, Answer(text)) == Ok(next)
    ensures Further(Act(project, form, Edit(text)).value, 1, next)
  {
    AnswerGoesOn(project, form, text, Act(project, form, Edit(text)).value);
    next := Play(project, form, Answer(text)).value;
  }

  // ---------------------------------------------------------------------------
  // When a launch runs what the review shows
  // ---------------------------------------------------------------------------

  /** A scenario has its card, and at the review the card shows the current answers. */
  predicate CardKept(form: Form) {
    && (form.selected.Some? ==> form.card.Some? && form.card.value.title == form.selected.value.title)
    && (form.step.ReviewStep? && form.selected.Some? ==> Reviewed(form) == form)
  }

  lemma ActKeepsCard(project: Project, form: Form, action: Action)
    requires CardKept(form) && Act(project, form, action).Ok?
    ensures CardKept(Act(project, form, action).value)
  {
    match action
    case Continue =>
      if IndexOf(form.step) + 1 < |SETUP_STEPS| {
        StepKeepsCard(form.(notice := Complaint(project, form)), SETUP_STEPS[IndexOf(form.step) + 1], NoNotice);
      }
    case Back => if IndexOf(form.step) > 0 { StepKeepsCard(form, SETUP_STEPS[IndexOf(form.step) - 1], NoNotice); }
    case Launch(issues) =>
      StepKeepsCard(form, TurnsStep, TurnsNotice);
      StepKeepsCard(form, ProfileStep, ProfileNotice);
    case _ =>
  }

  lemma StepKeepsCard(form: Form, step: Step, notice: Notice)
    requires form.selected.Some? ==> form.card.Some? && form.card.value.title == form.selected.value.title
    ensures CardKept(AtStep(form, step)) && CardKept(AtStep(form, step).(notice := notice))
  {
  }

  lemma {:induction false} PlayKeepsCard(project: Project, form: Form, actions: seq<Action>)
    requires CardKept(form)
    ensures Play(project, form, actions).Ok? ==> CardKept(Play(project, form, actions).value)
    decreases actions
  {
    if actions != [] {
      var next := Act(project, form, actions[0]);
      if next.Ok? {
        ActKeepsCard(project, form, actions[0]);
        PlayKeepsCard(project, next.value, actions[1..]);
      }
    }
  }

  /** The profile a launch looks up. */
  function UsedProfile(form: Form): string
    requires form.selected.Some?
  {
    if form.profile == "" then form.selected.value.environmentProfile else form.profile
  }

  /** The launch of this form begins a run. */
  predicate Starts(project: Project, form: Form, issues: seq<string>) {
    && form.selected.Some? && project.registered && issues == []
    && ValidTurns(form.turns) && UsedProfile(form) in project.catalog
  }

  /** The answers mean what the card says: the same texts as shown, the same number, and a profile with the
      same environment. */
  predicate Agrees(project: Project, form: Form, card: Card)
    requires form.selected.Some? && UsedProfile(form) in project.catalog
  {
    && card.persona == ShownText(form.persona) && card.script == ShownText(form.script)
    && card.goal == ShownText(form.goal) && ParseInt(card.turns) == ParseInt(form.turns)
    && card.profile in project.catalog && project.catalog[card.profile] == project.catalog[UsedProfile(form)]
  }

  /** The form of a screen after any presses, typing and handlers. */
  ghost predicate Reachable(project: Project, screen: Screen) {
    exists events :: Run(project, Screen(Mounted(project), []), events) == Ok(screen)
  }

  lemma ReachableKeepsCard(project: Project, screen: Screen)
    requires Reachable(project, screen)
    ensures CardKept(screen.form)
  {
    var events :| Run(project, Screen(Mounted(project), []), events) == Ok(screen);
    RunIsPlay(project, Screen(Mounted(project), []), events);
    PlayKeepsCard(project, Mounted(project), Carried([], events));
  }

  /** Whatever was pressed, typed and handled before, and whatever still waits: a launch that starts when it
      is handled at the review runs what the card shows exactly when the environment field is not empty;
      handled at any other step it does so exactly when the answers still agree with the card. */
  lemma LaunchHonoursExactly(project: Project, screen: Screen, issues: seq<string>)
    requires project.Valid() && Reachable(project, screen)
    requires screen.queue != [] && screen.queue[0] == Launch(issues) && Starts(project, screen.form, issues)
    ensures var form, after := screen.form, Do(project, screen, Handle);
            && after.Ok? && after.value.form.launched.Some? && after.value.form.card == form.card && form.card.Some?
            && after.value.form.launched.value.plugin == form.selected.value.plugin
            && form.card.value.title == form.selected.value.title
            && (Honours(project, after.value.form.launched.value, form.card.value) <==>
                  if form.step.ReviewStep? then form.profile != "" else Agrees(project, form, form.card.value))
  {
    ReachableKeepsCard(project, screen);
  }

  lemma OverlappingPresses(project: Project, form: Form, first: Action, second: Action, text: string, back: Form,
                           typed: Form, last: Form)
    requires Act(project, form, first) == Ok(back) && Act(project, back, Edit(text)) == Ok(typed)
    requires Act(project, typed, second) == Ok(last)
    ensures Run(project, Screen(form, []), [Press(first), Press(second), Handle, Type(text), Handle])
         == Ok(Screen(last, []))
  {
    var events := [Press(first), Press(second), Handle, Type(text), Handle];
    assert events == [events[0]] + events[1..] && events[1..] == [events[1]] + events[2..];
    assert events[2..] == [events[2]] + events[3..] && events[3..] == [events[3]] + events[4..];
    assert events[4..] == [events[4]] + [];
    assert [] + [first] == [first] && [first] + [second] == [first, second];
    assert [first, second][1..] == [second] && [second][1..] == [];
    StepsJoin(project, Screen(form, []), events[0], events[1..], Screen(form, [first]));
    StepsJoin(project, Screen(form, [first]), events[1], events[2..], Screen(form, [first, second]));
    StepsJoin(project, Screen(form, [first, second]), events[2], events[3..], Screen(back, [second]));
    StepsJoin(project, Screen(back, [second]), events[3], events[4..], Screen(typed, [second]));
    StepsJoin(project, Screen(typed, [second]), events[4], [], Screen(last, []));
  }

  lemma StepsJoin(project: Project, screen: Screen, event: Event, later: seq<Event>, next: Screen)
    requires Do(project, screen, event) == Ok(next)
    ensures Run(project, screen, [event] + later) == Run(project, next, later)
  {
    assert ([event] + later)[1..] == later;
  }

  /** It need not be what the review showed: "back" and "start simulation" pressed together at the review
      let another environment be typed before the launch takes effect. This order needs a text that is
      taken between two handlers of waiting presses, which the framework may or may not allow. */
  lemma QueuedLaunchSkipsReview(project: Project, form: Form, other: string)
    requires project.registered && Sound(project, form) && form.step.ReviewStep? && form.launched.None?
    requires form.selected.Some? && other != form.profile && other != "" && other in project.catalog
    ensures Offered(project, form, Back) && Offered(project, form, Launch([]))
    ensures var after := Run(project, Screen(form, []), [Press(Back), Press(Launch([])), Handle, Type(other), Handle]);
            && after.Ok? && after.value.form.card == form.card && form.card.value.profile == form.profile
            && after.value.form.launched.Some?
            && after.value.form.launched.value.environment == project.catalog[other]
  {
    var back := Act(project, form, Back).value;
    var typed := back.(profile := other);
    OverlappingPresses(project, form, Back, Launch([]), other, back, typed, Launched(project, typed, []));
  }

  /** Going on and back again changes nothing but the review card. */
  lemma BackUndoesContinue(project: Project, form: Form)
    requires form.notice == NoNotice && Complaint(project, form) == NoNotice && !form.step.ReviewStep?
    ensures var there := Act(project, form, Continue);
            there.Ok? && Act(project, there.value, Back) == Ok(form.(card := there.value.card))
  {
  }

  // ---------------------------------------------------------------------------
  // The application object
  // ---------------------------------------------------------------------------

  class SetupScreen {
    const project: Project
    var step: Step
    var selected: Option<Scenario>
    var persona: string
    var script: string
    var goal: string
    var turns: string
    var profile: string
    var card: Option<Card>
    var notice: Notice
    var launched: Option<FlowRequest>
    var queue: seq<Action>

    ghost function State(): Form
      reads this
    {
      Form(step, selected, persona, script, goal, turns, profile, card, notice, launched)
    }

    ghost function Whole(): Screen
      reads this
    {
      Screen(State(), queue)
    }

    /** `on_mount` in setup mode. */
    constructor (project: Project)
      ensures this.project == project && Whole() == Screen(Mounted(project), [])
    {
      this.project := project;
      step, selected, persona, script, goal, turns, profile := ScenarioStep, None, "", "", "", "", "";
      card, notice, launched, queue := None, NoNotice, None, [];
      new;
      if project.scenarios != [] {
        LoadScenarioDefaults(project.scenarios[0]);
      }
      SetSetupStep(ScenarioStep);
    }

    method UpdateSetupReview()
      modifies `card
      ensures State() == Reviewed(old(State()))
    {
      if selected.None? {
        return;
      }
      card := Some(Card(selected.value.title, ShownText(persona), ShownText(script), ShownText(goal), turns, profile));
    }

    method LoadScenarioDefaults(sc: Scenario)
      modifies `selected, `persona, `script, `goal, `turns, `profile, `card
      ensures State() == WithDefaults(old(State()), sc)
    {
      selected := Some(sc);
      persona := sc.persona;
      script := sc.script;
      goal := sc.goal;
      turns := Decimal(sc.maxTurns);
      profile := sc.environmentProfile;
      UpdateSetupReview();
    }

    method SetSetupStep(next: Step)
      modifies `step, `notice, `card
      ensures State() == AtStep(old(State()), next)
    {
      step := next;
      notice := NoNotice;
      if step.ReviewStep? {
        UpdateSetupReview();
      }
    }

    method ValidateSetupStep() returns (ok: bool)
      modifies `notice
      ensures notice == Complaint(project, old(State())) && ok == notice.NoNotice?
    {
      var error := NoNotice;
      if step.TurnsStep? {
        var number := ParseInt(turns);
        if number.None? || !(1 <= number.value <= 50) {
          error := TurnsNotice;
        }
      } else if step.ProfileStep? {
        if profile !in project.catalog {
          error := ProfileNotice;
        }
      }
      notice := error;
      ok := error.NoNotice?;
    }

    method OnScenarioSelected(row: int)
      modifies `selected, `persona, `script, `goal, `turns, `profile, `card
      ensures Act(project, old(State()), Highlight(row)) == Ok(State())
    {
      if row < 0 || row >= |project.scenarios| {
        return;
      }
      LoadScenarioDefaults(project.scenarios[row]);
    }

    method OnSetupNext() returns (crash: Option<Crash>)
      modifies `step, `notice, `card
      ensures Act(project, old(State()), Continue) == if crash.Some? then Err(crash.value) else Ok(State())
    {
      var ok := ValidateSetupStep();
      if !ok {
        return None;
      }
      var current := IndexOf(step);
      if current + 1 >= |SETUP_STEPS| {
        return Some(IndexError);
      }
      SetSetupStep(SETUP_STEPS[current + 1]);
      return None;
    }

    method OnSetupBack()
      modifies `step, `notice, `card
      ensures Act(project, old(State()), Back) == Ok(State())
    {
      var current := IndexOf(step);
      if current > 0 {
        SetSetupStep(SETUP_STEPS[current - 1]);
      }
    }

    /** `on_launch_clicked`; `issues` is what the preflight and the runtime lookup find. */
    method OnLaunchClicked(issues: seq<string>)
      modifies `step, `notice, `card, `launched
      ensures Act(project, old(State()), Launch(issues)) == Ok(State())
    {
      if selected.None? || !project.registered {
        return;
      }
      var sc := selected.value;
      var number := ParseInt(turns);
      if number.None? || !(1 <= number.value <= 50) {
        SetSetupStep(TurnsStep);
        notice := TurnsNotice;
        return;
      }
      var profileId := if profile == "" then sc.environmentProfile else profile;
      if profileId !in project.catalog {
        SetSetupStep(ProfileStep);
        notice := ProfileNotice;
        return;
      }
      if issues != [] {
        notice := PreflightNotice(issues[0]);
        return;
      }
      launched := Some(FlowRequest(sc.plugin, number.value, project.catalog[profileId],
                                   Given(persona), Given(script), Given(goal)));
    }

    /** An input takes what is typed at once. */
    method TypeText(text: string)
      modifies `persona, `script, `goal, `turns, `profile
      ensures Act(project, old(State()), Edit(text)) == Ok(State())
    {
      match step
      case PersonaStep => persona := text;
      case RequestStep => script := text;
      case GoalStep => goal := text;
      case TurnsStep => turns := text;
      case ProfileStep => profile := text;
      case _ =>
    }

    /** The handler of one message. */
    method Dispatch(action: Action) returns (crash: Option<Crash>)
      modifies this
      ensures Act(project, old(State()), action) == if crash.Some? then Err(crash.value) else Ok(State())
      ensures queue == old(queue)
    {
      crash := None;
      match action
      case Highlight(row) => OnScenarioSelected(row);
      case Edit(text) => TypeText(text);
      case Continue => crash := OnSetupNext();
      case Back => OnSetupBack();
      case Launch(issues) => OnLaunchClicked(issues);
    }

    method Take(event: Event) returns (crash: Option<Crash>)
      modifies this
      ensures Do(project, old(Whole()), event) == if crash.Some? then Err(crash.value) else Ok(Whole())
    {
      crash := None;
      match event
      case Press(action) => queue := queue + [action];
      case Type(text) => TypeText(text);
      case Handle =>
        if queue != [] {
          var action := queue[0];
          queue := queue[1..];
          crash := Dispatch(action);
        }
    }

    /** Any interleaving of presses, typing and handlers, up to a crash. */
    method TakeAll(events: seq<Event>) returns (crash: Option<Crash>)
      modifies this
      ensures Run(project, old(Whole()), events) == if crash.Some? then Err(crash.value) else Ok(Whole())
    {
      for i := 0 to |events|
        invariant Run(project, Whole(), events[i..]) == Run(project, old(Whole()), events)
      {
        assert events[i..][0] == events[i] && events[i..][1..] == events[i + 1..];
        crash := Take(events[i]);
        if crash.Some? {
          return;
        }
      }
      crash := None;
    }
  }
}
