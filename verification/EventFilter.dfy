/** Which simulation events a category and a search query select. */
module EventFilter {
  import opened Wrappers
  import opened PythonText
  import opened Sequences

  datatype Kind =
    | Start | User | Agent | Model | ToolSelected | ToolResult | Approval | Retry | StateChange | Done | Error | Cleanup

  datatype Source = Persona | Support | Reference | Engine | Cli

  datatype Category = All | Dialog | Tools | Errors | State

  function KindValue(k: Kind): string {
    match k
    case Start => "start" case User => "user" case Agent => "agent" case Model => "model"
    case ToolSelected => "tool_selected" case ToolResult => "tool_result" case Approval => "approval"
    case Retry => "retry" case StateChange => "state" case Done => "done" case Error => "error"
    case Cleanup => "cleanup"
  }

  function SourceValue(s: Source): string {
    match s
    case Persona => "persona" case Support => "support" case Reference => "reference" case Engine => "engine"
    case Cli => "cli"
  }

  /** The names read back. */
  function KindOfValue(value: string): Option<Kind> {
    if value == "start" then Some(Start) else if value == "user" then Some(User)
    else if value == "agent" then Some(Agent) else if value == "model" then Some(Model)
    else if value == "tool_selected" then Some(ToolSelected) else if value == "tool_result" then Some(ToolResult)
    else if value == "approval" then Some(Approval) else if value == "retry" then Some(Retry)
    else if value == "state" then Some(StateChange) else if value == "done" then Some(Done)
    else if value == "error" then Some(Error) else if value == "cleanup" then Some(Cleanup) else None
  }

  function SourceOfValue(value: string): Option<Source> {
    if value == "persona" then Some(Persona) else if value == "support" then Some(Support)
    else if value == "reference" then Some(Reference) else if value == "engine" then Some(Engine)
    else if value == "cli" then Some(Cli) else None
  }

  lemma NamesReadBack(k: Kind, s: Source)
    ensures KindOfValue(KindValue(k)) == Some(k) && SourceOfValue(SourceValue(s)) == Some(s)
  {
  }

  datatype Display = Display(kind: Kind, source: Source, number: int, text: string, detail: seq<string>)

  datatype SimEvent = SimEvent(runId: string, number: int, display: Option<Display>)

  predicate InCategory(k: Kind, c: Category) {
    match c
    case All => true
    case Dialog => k.User? || k.Agent? || k.Model?
    case Tools => k.ToolSelected? || k.ToolResult?
    case Errors => k.Error? || k.Retry?
    case State => k.Start? || k.Done? || k.StateChange? || k.Approval? || k.Cleanup?
  }

  function Haystack(d: Display): string {
    Lower(JoinWords([KindValue(d.kind), SourceValue(d.source), d.text] + d.detail))
  }

  /** The search terms of a query. */
  function Terms(query: string): seq<string> {
    Words(Lower(query))
  }

  predicate HasAll(haystack: string, terms: seq<string>) {
    forall t | t in terms :: Contains(haystack, t)
  }

  /** `_matches`. */
  predicate Matches(e: SimEvent, c: Category, query: string) {
    match e.display
    case None => false
    case Some(d) =>
      if !InCategory(d.kind, c) then false
      else if StripRight(StripLeft(query)) == "" then true
      else HasAll(Haystack(d), Terms(query))
  }

  /** A rule for filtering by category and query; it never selects an event without a display view. */
  type Picker = p: (Category, string) -> SimEvent -> bool | forall c, q, e :: p(c, q)(e) ==> e.display.Some?
    ghost witness (c: Category, q: string) => (e: SimEvent) => false

  function Pick(c: Category, query: string): SimEvent -> bool {
    e => Matches(e, c, query)
  }

  /** The application's own rule is such a one. */
  function MatchesPicker(): (p: Picker)
    ensures forall c, q, e :: p(c, q)(e) == Matches(e, c, q)
  {
    Pick
  }

  function Select(log: seq<SimEvent>, c: Category, query: string): seq<SimEvent> {
    Filter(Pick(c, query), log)
  }

  // ---------------------------------------------------------------------------
  // Search
  // ---------------------------------------------------------------------------

  predicate Blank(s: string) {
    forall i :: 0 <= i < |s| ==> IsSpace(s[i])
  }

  lemma {:induction false} BlankHasNoTerms(query: string)
    requires Blank(query)
    ensures Terms(query) == []
  {
    if query != "" {
      assert Lower(query)[0] == query[0] && Lower(query)[1..] == Lower(query[1..]);
      BlankHasNoTerms(query[1..]);
    }
  }

  lemma {:induction false} StripRightBlank(s: string)
    requires StripRight(s) == ""
    ensures Blank(s)
  {
    if s != "" {
      StripRightBlank(s[..|s| - 1]);
      assert s == s[..|s| - 1] + [s[|s| - 1]];
    }
  }

  lemma {:induction false} StripLeftBlank(s: string)
    requires Blank(StripLeft(s))
    ensures Blank(s)
  {
    if s != "" && IsSpace(s[0]) {
      StripLeftBlank(s[1..]);
      assert s == [s[0]] + s[1..];
    }
  }

  /** A search term occurs in the kind, the source, the text or a detail line, in any case of letters. */
  predicate FoundIn(d: Display, term: string) {
    || Contains(Lower(KindValue(d.kind)), term) || Contains(Lower(SourceValue(d.source)), term)
    || Contains(Lower(d.text), term) || exists i :: 0 <= i < |d.detail| && Contains(Lower(d.detail[i]), term)
  }

  lemma HaystackFinds(d: Display, term: string)
    requires Solid(term)
    ensures Contains(Haystack(d), term) <==> FoundIn(d, term)
  {
    var parts := [KindValue(d.kind), SourceValue(d.source), d.text] + d.detail;
    JoinContains(parts, term);
    assert parts[0] == KindValue(d.kind) && parts[1] == SourceValue(d.source) && parts[2] == d.text;
    assert forall i :: 0 <= i < |d.detail| ==> parts[i + 3] == d.detail[i];
    assert forall i :: 3 <= i < |parts| ==> parts[i] == d.detail[i - 3];
  }

  /** The meaning of a match: the event is of a shown kind, and every word of the query occurs in its kind,
      source, text or one detail line. The blank query is no special case. */
  lemma MatchesMeaning(e: SimEvent, c: Category, query: string)
    ensures Matches(e, c, query) <==>
              && e.display.Some? && InCategory(e.display.value.kind, c)
              && forall t :: t in Words(Lower(query)) ==> FoundIn(e.display.value, t)
  {
    MatchesHasAll(e, c, query);
    WordsSolid(Lower(query), "");
    if e.display.Some? {
      forall t | t in Words(Lower(query))
        ensures Contains(Haystack(e.display.value), t) <==> FoundIn(e.display.value, t)
      {
        HaystackFinds(e.display.value, t);
      }
    }
  }

  /** Capital and small letters make no difference to a search. */
  lemma CaseDoesNotMatter(e: SimEvent, c: Category, q1: string, q2: string)
    requires |q1| == |q2| && forall i :: 0 <= i < |q1| ==> SameLetter(q1[i], q2[i])
    ensures Matches(e, c, q1) == Matches(e, c, q2)
  {
    SameLetters(q1, q2);
    MatchesHasAll(e, c, q1);
    MatchesHasAll(e, c, q2);
  }

  /** Without the special case for a blank query. */
  lemma MatchesHasAll(e: SimEvent, c: Category, query: string)
    ensures Matches(e, c, query) <==>
              e.display.Some? && InCategory(e.display.value.kind, c) && HasAll(Haystack(e.display.value), Terms(query))
  {
    if StripRight(StripLeft(query)) == "" {
      StripRightBlank(StripLeft(query));
      StripLeftBlank(query);
      BlankHasNoTerms(query);
    }
  }

  /** Terms are a set: order, repetition and the white space around them do not matter. */
  lemma SameTermsSameMatches(e: SimEvent, c: Category, q1: string, q2: string)
    requires forall t :: t in Terms(q1) <==> t in Terms(q2)
    ensures Matches(e, c, q1) == Matches(e, c, q2)
  {
    MatchesHasAll(e, c, q1);
    MatchesHasAll(e, c, q2);
  }

  lemma TermsOfJoined(q1: string, gap: char, q2: string)
    requires IsSpace(gap)
    ensures Terms(q1 + [gap] + q2) == Terms(q1) + Terms(q2)
  {
    assert Lower(q1 + [gap] + q2) == Lower(q1) + [gap] + Lower(q2);
    WordsOfJoined(Lower(q1), gap, Lower(q2), "");
  }

  /** Two queries with white space between them select what both select. */
  lemma JoinedQuery(e: SimEvent, c: Category, q1: string, gap: char, q2: string)
    requires IsSpace(gap)
    ensures Matches(e, c, q1 + [gap] + q2) <==> Matches(e, c, q1) && Matches(e, c, q2)
  {
    TermsOfJoined(q1, gap, q2);
    MatchesHasAll(e, c, q1);
    MatchesHasAll(e, c, q2);
    MatchesHasAll(e, c, q1 + [gap] + q2);
  }

  /** Adding terms narrows the view: it filters the view it had. */
  lemma AddingTermsNarrows(log: seq<SimEvent>, c: Category, q1: string, gap: char, q2: string)
    requires IsSpace(gap)
    ensures Select(log, c, q1 + [gap] + q2) == Select(Select(log, c, q1), c, q2)
  {
    forall e ensures Pick(c, q1 + [gap] + q2)(e) == (Pick(c, q1)(e) && Pick(c, q2)(e)) {
      JoinedQuery(e, c, q1, gap, q2);
    }
    FilterTwice(Pick(c, q1), Pick(c, q2), Pick(c, q1 + [gap] + q2), log);
  }

  // ---------------------------------------------------------------------------
  // Categories
  // ---------------------------------------------------------------------------

  /** The category, other than `All`, that shows a kind. */
  function Home(k: Kind): Category {
    match k
    case User => Dialog case Agent => Dialog case Model => Dialog
    case ToolSelected => Tools case ToolResult => Tools
    case Error => Errors case Retry => Errors
    case _ => State
  }

  lemma OneHome(k: Kind, c: Category)
    ensures InCategory(k, c) <==> c == All || c == Home(k)
  {
  }

  /** The `All` view is the disjoint, order-preserving merge of the four others: each of them is a
      filter of it, every event of it belongs to exactly one of them, and their sizes add up. */
  lemma CategoriesMerge(log: seq<SimEvent>, query: string)
    ensures var all := Select(log, All, query);
            && (forall c :: Select(log, c, query) == Select(all, c, query))
            && multiset(all) == multiset(Select(log, Dialog, query)) + multiset(Select(log, Tools, query))
                                + multiset(Select(log, Errors, query)) + multiset(Select(log, State, query))
            && (forall e, c :: e in all && c != All ==>
                  (e in Select(log, c, query) <==> e.display.Some? && c == Home(e.display.value.kind)))
  {
    forall e, c ensures Pick(c, query)(e) <==>
      Pick(All, query)(e) && (c == All || (e.display.Some? && c == Home(e.display.value.kind)))
    {
      MatchesHasAll(e, c, query);
      MatchesHasAll(e, All, query);
      if e.display.Some? {
        OneHome(e.display.value.kind, c);
      }
    }
    forall c ensures Select(log, c, query) == Select(Select(log, All, query), c, query) {
      FilterTwice(Pick(All, query), Pick(c, query), Pick(c, query), log);
    }
    FilterSplits(Pick(All, query), Pick(Dialog, query), Pick(Tools, query), Pick(Errors, query),
                 Pick(State, query), log);
    forall e, c | e in Select(log, All, query) && c != All
      ensures e in Select(log, c, query) <==> e.display.Some? && c == Home(e.display.value.kind)
    {
      FilterMember(Pick(All, query), log, e);
      FilterMember(Pick(c, query), log, e);
    }
  }
}
