/** The program reducer: the language list, the chosen language, the source and the input. */
module ProgramReducer {
  import opened Wrappers

  datatype ProgramState = ProgramState(
    fetching: bool,
    languages: Option<seq<string>>,
    language: Option<string>,
    source: Option<seq<string>>,
    input: Option<seq<string>>,
    error: Option<string>)

  datatype ProgramAction =
    | FetchLanguages(payload: Option<seq<string>>, error: Option<string>)
    | SetLanguage(language: string)
    | SetSource(source: seq<string>)
    | SetInput(input: seq<string>)
    | OtherAction(actionType: string)

  const InitialState: ProgramState := ProgramState(false, None, None, None, None, None)

  predicate Truthy(s: Option<string>)
  {
    s.Some? && s.value != ""
  }

  function StateOrInitial(state: Option<ProgramState>): ProgramState
  {
    if state.Some? then state.value else InitialState
  }

  /** `languages[0]`: undefined for an empty list. */
  function First(languages: seq<string>): (r: Option<string>)
    ensures r.Some? <==> |languages| > 0
    ensures r.Some? ==> r.value == languages[0]
  {
    if languages == [] then None else Some(languages[0])
  }

  /**
   * The reducer. A fetch with a payload sets the languages and picks the first
   * one, one with an error records it, both ending the fetch; a fetch with
   * neither only marks it fetching. The three setters each replace their own
   * field only.
   */
  function Reduce(state: Option<ProgramState>, action: ProgramAction): (r: ProgramState)
    ensures action.FetchLanguages? && action.payload.Some? ==>
      r == StateOrInitial(state).(languages := action.payload, language := First(action.payload.value), fetching := false)
    ensures action.FetchLanguages? && action.payload.None? && Truthy(action.error) ==>
      r == StateOrInitial(state).(fetching := false, error := action.error)
    ensures action.FetchLanguages? && action.payload.None? && !Truthy(action.error) ==>
      r == StateOrInitial(state).(fetching := true)
    ensures action.SetLanguage? ==> r == StateOrInitial(state).(language := Some(action.language))
    ensures action.SetSource? ==> r == StateOrInitial(state).(source := Some(action.source))
    ensures action.SetInput? ==> r == StateOrInitial(state).(input := Some(action.input))
    ensures action.OtherAction? ==> r == StateOrInitial(state)
  {
    var s := StateOrInitial(state);
    match action
    case FetchLanguages(payload, error) =>
      if payload.Some? then s.(languages := payload, language := First(payload.value), fetching := false)
      else if Truthy(error) then s.(fetching := false, error := error)
      else s.(fetching := true)
    case SetLanguage(language) => s.(language := Some(language))
    case SetSource(source) => s.(source := Some(source))
    case SetInput(input) => s.(input := Some(input))
    case OtherAction(_) => s
  }

  /** A successful fetch selects a language from the fetched list, or none when the list is empty, and ends the fetch. */
  lemma FetchSelectsFetchedLanguage(state: Option<ProgramState>, languages: seq<string>, error: Option<string>)
    ensures var r := Reduce(state, FetchLanguages(Some(languages), error));
      && !r.fetching
      && r.languages == Some(languages)
      && (r.language.Some? <==> |languages| > 0)
      && (r.language.Some? ==> r.language.value in languages)
      && r.source == StateOrInitial(state).source
      && r.input == StateOrInitial(state).input
  {
  }

  /** Setting the same field twice keeps only the second value. */
  lemma SetterLastWins(state: ProgramState, first: ProgramAction, second: ProgramAction)
    requires first.SetLanguage? || first.SetSource? || first.SetInput?
    requires second.SetLanguage? || second.SetSource? || second.SetInput?
    requires first.SetLanguage? == second.SetLanguage? && first.SetSource? == second.SetSource?
    ensures Reduce(Some(Reduce(Some(state), first)), second) == Reduce(Some(state), second)
  {
  }

  /** Setters of different fields commute. */
  lemma SettersCommute(state: ProgramState, a: ProgramAction, b: ProgramAction)
    requires a.SetLanguage? || a.SetSource? || a.SetInput?
    requires b.SetLanguage? || b.SetSource? || b.SetInput?
    ensures Reduce(Some(Reduce(Some(state), a)), b) == Reduce(Some(Reduce(Some(state), b)), a)
      <==> (a.SetLanguage? != b.SetLanguage? || a.SetSource? != b.SetSource? || a == b)
  {
  }
}
