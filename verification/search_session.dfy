/**
 * The search box inside the page session: tab switches and readiness
 * changes re-run the clearing effect, keystrokes reach the handler only
 * while the input is shown, and the one-shot "search used" log fires when
 * the flag is first set.
 */
module SearchSession {
  import opened Options
  import opened PageState
  import opened SearchBox

  datatype Session = Session(tab: TabStatus, isNotReady: bool, search: SearchState)

  datatype UserEvent =
    | SelectTab(tab: TabStatus)
    | ReadinessChanged(isNotReady: bool)
    | Keystroke(value: string, scrollTop: Option<real>)

  /**
   * A step's new session, the scroll animation it starts, and whether the
   * "search used" event is logged.
   */
  datatype StepResult = StepResult(session: Session, animation: Option<ScrollAnimation>, logsSearchUsed: bool)

  /** The search input exists only on a ready page showing the "available" tab. */
  predicate SearchInputShown(s: Session) {
    !s.isNotReady && s.tab == Available
  }

  /** The page as mounted: "available" tab, empty search, after the mount run of the clearing effect. */
  function Mount(isNotReady: bool): (s: Session)
    ensures s.tab == Available && s.isNotReady == isNotReady
    ensures s.search == InitialSearch
  {
    Session(Available, isNotReady, ClearSearchEffect(InitialSearch, isNotReady, Available))
  }

  /**
   * One user or store event. The clearing effect runs only when its
   * dependencies (tab, readiness) actually change.
   */
  function Step(s: Session, e: UserEvent): (r: StepResult)
    ensures s.search.isEnteredSearch ==> r.session.search.isEnteredSearch
    ensures r.logsSearchUsed <==> !s.search.isEnteredSearch && r.session.search.isEnteredSearch
    ensures r.logsSearchUsed ==> e.Keystroke? && HasSearchTerm(e.value)
    ensures e.Keystroke? && !SearchInputShown(s) ==> r == StepResult(s, None, false)
    ensures e.Keystroke? && SearchInputShown(s) ==> r.session.search.text == e.value
    ensures !e.Keystroke? ==> r.animation.None?
    ensures r.animation.Some? ==> r.animation.value.to == ScrollTarget
  {
    match e
    case SelectTab(tab) =>
      if tab == s.tab then StepResult(s, None, false)
      else StepResult(Session(tab, s.isNotReady, ClearSearchEffect(s.search, s.isNotReady, tab)), None, false)
    case ReadinessChanged(isNotReady) =>
      if isNotReady == s.isNotReady then StepResult(s, None, false)
      else StepResult(Session(s.tab, isNotReady, ClearSearchEffect(s.search, isNotReady, s.tab)), None, false)
    case Keystroke(value, scrollTop) =>
      if !SearchInputShown(s) then StepResult(s, None, false)
      else
        var c := OnSearchChange(s.search, value, scrollTop);
        StepResult(s.(search := c.state), c.animation, !s.search.isEnteredSearch && c.state.isEnteredSearch)
  }

  datatype RunResult = RunResult(last: Session, searchUsedLogs: nat)

  function Run(s: Session, events: seq<UserEvent>): RunResult
    decreases |events|
  {
    if events == [] then RunResult(s, 0)
    else
      var r := Step(s, events[0]);
      var rest := Run(r.session, events[1..]);
      RunResult(rest.last, (if r.logsSearchUsed then 1 else 0) + rest.searchUsedLogs)
  }

  /**
   * Over any sequence of events the flag never resets, and "search used" is
   * logged exactly once if the flag got set, and never otherwise.
   */
  lemma {:induction false} SearchUsedLoggedOnce(s: Session, events: seq<UserEvent>)
    ensures s.search.isEnteredSearch ==> Run(s, events).last.search.isEnteredSearch
    ensures Run(s, events).searchUsedLogs
         == (if !s.search.isEnteredSearch && Run(s, events).last.search.isEnteredSearch then 1 else 0)
    decreases |events|
  {
    if events != [] {
      SearchUsedLoggedOnce(Step(s, events[0]).session, events[1..]);
    }
  }

  /**
   * Going to the "staked" tab and back on a ready page clears the search text
   * and keeps the flag; the text survives while the "staked" tab is shown.
   */
  lemma SwitchAwayAndBackClears(s: Session)
    requires SearchInputShown(s)
    ensures var away := Step(s, SelectTab(Staked)).session;
            var back := Step(away, SelectTab(Available)).session;
            && away.search == s.search
            && back.search == SearchState("", s.search.isEnteredSearch)
            && SearchInputShown(back)
  {
  }

  /** The page becoming ready on the "available" tab clears the search text. */
  lemma BecomingReadyClears(s: Session)
    requires s.isNotReady && s.tab == Available
    ensures Step(s, ReadinessChanged(false)).session.search == SearchState("", s.search.isEnteredSearch)
  {
  }

  /** Re-selecting the tab already shown does not clear anything. */
  lemma SameTabKeepsSearch(s: Session)
    ensures Step(s, SelectTab(s.tab)) == StepResult(s, None, false)
  {
  }
}
