/**
 * The page-wide inputs of the main page: which tab is selected and whether
 * the chain-status query has settled.
 */
module PageState {
  import opened Options

  /** The two tabs of the main page; the page starts on `Available`. */
  datatype TabStatus = Available | Staked

  /**
   * The RPC status query of the first configured chain: it may hold a
   * response, an error, both or neither.
   */
  datatype StatusQuery<R, E> = StatusQuery(response: Option<R>, error: Option<E>)

  /** Not ready while the status query has neither a response nor an error. */
  predicate IsNotReady<R, E>(query: StatusQuery<R, E>) {
    query.response.None? && query.error.None?
  }

  /**
   * Readiness means "the query has settled", not "the query succeeded":
   * a failed query makes the page ready exactly like a successful one.
   */
  lemma ReadyIffSettled<R, E>(query: StatusQuery<R, E>)
    ensures !IsNotReady(query) <==> query.response.Some? || query.error.Some?
    ensures query.error.Some? ==> !IsNotReady(query)
    ensures IsNotReady(query) ==> query == StatusQuery(None, None)
  {
  }
}
