/** The language reducer: the list of tracer languages and the selected one. */
module LanguageReducer {
  import opened Wrappers

  datatype LanguageState = LanguageState(
    fetching: bool,
    languages: seq<string>,
    selected: int,
    error: Option<string>)

  datatype LanguageAction =
    | Fetch(payload: Option<seq<string>>, error: Option<string>)
    | Select(selected: int)
    | OtherAction(actionType: string)

  const InitialState: LanguageState := LanguageState(false, [], 0, None)

  predicate Truthy(s: Option<string>)
  {
    s.Some? && s.value != ""
  }

  function StateOrInitial(state: Option<LanguageState>): LanguageState
  {
    if state.Some? then state.value else InitialState
  }

  /**
   * The reducer. A fetch with a payload replaces the languages, one with an
   * error records it, both keeping the rest and ending the fetch; a fetch with
   * neither resets to the initial state, fetching. `language/select` changes
   * only the selection.
   */
  function Reduce(state: Option<LanguageState>, action: LanguageAction): (r: LanguageState)
    ensures action.Fetch? && action.payload.Some? ==>
      r == StateOrInitial(state).(fetching := false, languages := action.payload.value)
    ensures action.Fetch? && action.payload.None? && Truthy(action.error) ==>
      r == StateOrInitial(state).(fetching := false, error := action.error)
    ensures action.Fetch? && action.payload.None? && !Truthy(action.error) ==>
      r == LanguageState(true, [], 0, None)
    ensures action.Select? ==> r == StateOrInitial(state).(selected := action.selected)
    ensures action.OtherAction? ==> r == StateOrInitial(state)
  {
    var s := StateOrInitial(state);
    match action
    case Fetch(payload, error) =>
      if payload.Some? then s.(fetching := false, languages := payload.value)
      else if Truthy(error) then s.(fetching := false, error := error)
      else InitialState.(fetching := true)
    case Select(selected) => s.(selected := selected)
    case OtherAction(_) => s
  }

  /** A fetch that succeeds after a fetch that started leaves the selection at 0 and no error. */
  lemma FetchThenSucceed(state: Option<LanguageState>, languages: seq<string>)
    ensures Reduce(Some(Reduce(state, Fetch(None, None))), Fetch(Some(languages), None))
         == LanguageState(false, languages, 0, None)
  {
  }
}
