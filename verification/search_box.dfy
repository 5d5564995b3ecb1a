/**
 * The search box of the "available" tab: what one keystroke does to the
 * search text, the "has searched" flag and the scroll position, and what
 * the clearing effect does when the tab or readiness changes.
 */
module SearchBox {
  import opened Options
  import opened PageState

  /** The scroll offset a search scrolls the page up to. */
  const ScrollTarget: real := 218.0

  /**
   * The characters `String.prototype.trim` removes: the ECMAScript
   * WhiteSpace (tab, vertical tab, form feed, ZWNBSP and every space
   * separator) and LineTerminator code points.
   */
  predicate IsJsWhitespace(c: char) {
    var n := c as int;
    || n == 0x09 || n == 0x0B || n == 0x0C || n == 0x20 || n == 0xA0 || n == 0xFEFF
    || n == 0x1680 || (0x2000 <= n <= 0x200A) || n == 0x202F || n == 0x205F || n == 0x3000
    || n == 0x0A || n == 0x0D || n == 0x2028 || n == 0x2029
  }

  /** How many whitespace characters `s` starts with. */
  function LeadingWhitespace(s: string): (k: nat)
    ensures k <= |s|
    ensures forall i :: 0 <= i < k ==> IsJsWhitespace(s[i])
    ensures k < |s| ==> !IsJsWhitespace(s[k])
  {
    if |s| > 0 && IsJsWhitespace(s[0]) then 1 + LeadingWhitespace(s[1..]) else 0
  }

  /** How many whitespace characters `s` ends with. */
  function TrailingWhitespace(s: string): (j: nat)
    ensures j <= |s|
    ensures forall i :: |s| - j <= i < |s| ==> IsJsWhitespace(s[i])
    ensures j < |s| ==> !IsJsWhitespace(s[|s| - j - 1])
  {
    if |s| > 0 && IsJsWhitespace(s[|s| - 1]) then 1 + TrailingWhitespace(s[..|s| - 1]) else 0
  }

  /**
   * `s.trim()`: the slice of the input after its leading whitespace with
   * only whitespace outside it; empty exactly when every character is
   * whitespace, and otherwise starting and ending with non-whitespace.
   */
  function Trim(s: string): (t: string)
    ensures var k := LeadingWhitespace(s);
            && k + |t| <= |s| && t == s[k..k + |t|]
            && (forall i :: 0 <= i < k ==> IsJsWhitespace(s[i]))
            && (forall i :: k + |t| <= i < |s| ==> IsJsWhitespace(s[i]))
    ensures |t| == 0 <==> forall i :: 0 <= i < |s| ==> IsJsWhitespace(s[i])
    ensures |t| > 0 ==> !IsJsWhitespace(t[0]) && !IsJsWhitespace(t[|t| - 1])
  {
    var k := LeadingWhitespace(s);
    if k == |s| then []
    else
      var j := TrailingWhitespace(s);
      s[k..|s| - j]
  }

  /** The input contains something other than whitespace. */
  ghost predicate HasSearchTerm(value: string) {
    exists i :: 0 <= i < |value| && !IsJsWhitespace(value[i])
  }

  /** `isEnteredSearch` is set once a search term was typed and never cleared. */
  datatype SearchState = SearchState(text: string, isEnteredSearch: bool)

  const InitialSearch: SearchState := SearchState("", false)

  /** A scroll animation of the page container from an offset to another. */
  datatype ScrollAnimation = ScrollAnimation(from: real, to: real)

  datatype ChangeResult = ChangeResult(state: SearchState, animation: Option<ScrollAnimation>)

  /**
   * The input's change handler. `scrollTop` is the offset of the page's
   * scroll container, absent when the container is not mounted.
   */
  function OnSearchChange(s: SearchState, value: string, scrollTop: Option<real>): (r: ChangeResult)
    ensures r.state.text == value
    ensures r.state.isEnteredSearch <==> s.isEnteredSearch || HasSearchTerm(value)
    ensures r.animation.Some? <==> HasSearchTerm(value) && scrollTop.Some? && scrollTop.value < ScrollTarget
    ensures r.animation.Some? ==> r.animation.value == ScrollAnimation(scrollTop.value, ScrollTarget)
  {
    if |Trim(value)| > 0 then
      var animation :=
        match scrollTop
        case Some(top) => if top < ScrollTarget then Some(ScrollAnimation(top, ScrollTarget)) else None
        case None => None;
      ChangeResult(SearchState(value, true), animation)
    else
      ChangeResult(SearchState(value, s.isEnteredSearch), None)
  }

  /**
   * The effect run when the tab or readiness changes: on a ready page showing
   * the "available" tab the search text is cleared; the flag is kept.
   */
  function ClearSearchEffect(s: SearchState, isNotReady: bool, tab: TabStatus): (r: SearchState)
    ensures r.isEnteredSearch == s.isEnteredSearch
    ensures !isNotReady && tab == Available ==> r.text == ""
    ensures isNotReady || tab == Staked ==> r == s
  {
    if !isNotReady && tab == Available then SearchState("", s.isEnteredSearch) else s
  }

  /** Whitespace-only input changes neither the flag nor the scroll. */
  lemma WhitespaceInputIsInert(s: SearchState, value: string, scrollTop: Option<real>)
    requires forall i :: 0 <= i < |value| ==> IsJsWhitespace(value[i])
    ensures OnSearchChange(s, value, scrollTop) == ChangeResult(SearchState(value, s.isEnteredSearch), None)
  {
  }

  /** Typing a term at the top of the page scrolls it to the target offset. */
  lemma TermAtTopScrollsToTarget(s: SearchState, value: string)
    requires HasSearchTerm(value)
    ensures OnSearchChange(s, value, Some(0.0)).animation == Some(ScrollAnimation(0.0, ScrollTarget))
    ensures OnSearchChange(s, value, Some(ScrollTarget)).animation == None
    ensures OnSearchChange(s, value, Some(0.0)).state.isEnteredSearch
  {
  }
}
