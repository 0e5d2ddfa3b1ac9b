/**
 * The code editor reducer: the source text, the set of breakpoint lines and
 * the set of line markers.
 */
module CodeReducer {
  import opened Wrappers

  datatype MarkerType = Highlight | Warning | ErrorMarker

  datatype Marker = Marker(line: int, markerType: MarkerType)

  datatype CodeState = CodeState(text: seq<string>, breakpoints: set<int>, markers: set<Marker>)

  datatype CodeAction =
    | SetText(text: seq<string>)
    | SetBreakpoint(line: int)
    | SetMarkers(markers: seq<Marker>)
    | OtherAction(actionType: string)

  const InitialState: CodeState := CodeState([], {}, {})

  /** The state a reducer starts from: the given one, or the initial one when it is undefined. */
  function StateOrInitial(state: Option<CodeState>): CodeState
  {
    if state.Some? then state.value else InitialState
  }

  /** Adds the line when absent, removes it when present. */
  function Toggle(lines: set<int>, line: int): (r: set<int>)
    ensures line in r <==> line !in lines
    ensures forall other :: other != line ==> (other in r <==> other in lines)
  {
    if line in lines then lines - {line} else lines + {line}
  }

  /** The set of the payload's markers (`new Set(markers)`). */
  function MarkerSet(markers: seq<Marker>): (r: set<Marker>)
    ensures forall m :: m in r <==> m in markers
  {
    set m | m in markers
  }

  /**
   * The reducer. A missing action returns the state; `setText` replaces the
   * text, `setBreakpoint` flips one line's membership in the breakpoints,
   * `setMarkers` replaces the markers; any other action returns the state.
   */
  function Reduce(state: Option<CodeState>, action: Option<CodeAction>): (r: CodeState)
    ensures action.None? ==> r == StateOrInitial(state)
    ensures action.Some? && action.value.SetText? ==>
      r.text == action.value.text
      && r.breakpoints == StateOrInitial(state).breakpoints && r.markers == StateOrInitial(state).markers
    ensures action.Some? && action.value.SetBreakpoint? ==>
      && r.text == StateOrInitial(state).text && r.markers == StateOrInitial(state).markers
      && (action.value.line in r.breakpoints <==> action.value.line !in StateOrInitial(state).breakpoints)
      && (forall other :: other != action.value.line ==>
            (other in r.breakpoints <==> other in StateOrInitial(state).breakpoints))
    ensures action.Some? && action.value.SetMarkers? ==>
      && r.text == StateOrInitial(state).text && r.breakpoints == StateOrInitial(state).breakpoints
      && (forall m :: m in r.markers <==> m in action.value.markers)
    ensures action.Some? && action.value.OtherAction? ==> r == StateOrInitial(state)
  {
    var s := StateOrInitial(state);
    if action.None? then s
    else match action.value
      case SetText(text) => s.(text := text)
      case SetBreakpoint(line) => s.(breakpoints := Toggle(s.breakpoints, line))
      case SetMarkers(markers) => s.(markers := MarkerSet(markers))
      case OtherAction(_) => s
  }

  /** Toggling the same breakpoint twice restores the state. */
  lemma BreakpointToggleInvolution(s: CodeState, line: int)
    ensures Reduce(Some(Reduce(Some(s), Some(SetBreakpoint(line)))), Some(SetBreakpoint(line))) == s
  {
    var once := Reduce(Some(s), Some(SetBreakpoint(line)));
    var twice := Reduce(Some(once), Some(SetBreakpoint(line)));
    assert twice.breakpoints == s.breakpoints;
  }

  /** Breakpoint toggles on different lines commute. */
  lemma BreakpointTogglesCommute(s: CodeState, a: int, b: int)
    ensures Reduce(Some(Reduce(Some(s), Some(SetBreakpoint(a)))), Some(SetBreakpoint(b)))
         == Reduce(Some(Reduce(Some(s), Some(SetBreakpoint(b)))), Some(SetBreakpoint(a)))
  {
    var ab := Reduce(Some(Reduce(Some(s), Some(SetBreakpoint(a)))), Some(SetBreakpoint(b)));
    var ba := Reduce(Some(Reduce(Some(s), Some(SetBreakpoint(b)))), Some(SetBreakpoint(a)));
    assert ab.breakpoints == ba.breakpoints;
  }
}
