/** The interactive Lite session: key presses, repaints, and the two kinds of scan that run in the
    background, with the flag that keeps them apart, as a step function over events and as an object
    whose methods refine it. */
module LiteSession {
  import opened CodeUnits
  import opened LiteLists
  import opened LiteState
  import opened Numbers
  import opened Options
  import K = KeyDecoder
  import R = LiteRender

  // ------------------------------------------------- keys

  datatype Effect = Act(action: Action) | RequestRefresh | RequestContext | Exit | Nothing

  predicate EditsSearch(s: State) {
    s.mode.Search? && s.focus.ProjectsPane? && s.overlay.NoOverlay?
  }

  predicate Printable(key: K.Key) {
    |key.input| > 0 && !key.ctrl && key.name.None?
  }

  function EditEffect(key: K.Key): Effect {
    if key.name == Some(K.Backspace) || key.name == Some(K.Delete) then Act(Backspace)
    else if key.name == Some(K.Return) then Act(CommitSearch)
    else if Printable(key) then Act(Append(key.input))
    else Nothing
  }

  function LetterEffect(key: K.Key): Effect {
    if key.input == [0x71] then Exit
    else if key.input == [0x3F] then Act(ToggleHelp)
    else if key.input == [0x2F] then Act(EnterSearch)
    else if key.input == [0x73] then Act(ToggleSources)
    else if key.input == [0x69] then Act(ToggleStats)
    else if key.input == [0x72] then RequestRefresh
    else if key.input == [0x70] then Act(SetScope(Projects))
    else if key.input == [0x53] then Act(SetScope(Sessions))
    else if key.input == [0x74] then Act(FocusTurns)
    else if key.input == [0x64] then Act(FocusDetail)
    else if key.input == [0x67] then Act(if key.shift then JumpLast else JumpFirst)
    else if key.input == [0x47] then Act(JumpLast)
    else Nothing
  }

  function NavigationEffect(s: State, key: K.Key): Effect {
    if s.overlay.Stats? && key.name == Some(K.Tab) && !key.shift then Act(CycleDimension)
    else if key.name == Some(K.Tab) then Act(if key.shift then FocusPrevious else FocusNext)
    else if key.name == Some(K.Right) && !EditsSearch(s) then Act(FocusNext)
    else if key.name == Some(K.Left) && !EditsSearch(s) then Act(FocusPrevious)
    else if key.name == Some(K.PageUp) then Act(PageUp)
    else if key.name == Some(K.PageDown) then Act(PageDown)
    else if key.name == Some(K.Home) then Act(JumpFirst)
    else if key.name == Some(K.End) then Act(JumpLast)
    else if key.name == Some(K.Down) || key.input == [0x6A] then Act(MoveDown)
    else if key.name == Some(K.Up) || key.input == [0x6B] then Act(MoveUp)
    else if key.name == Some(K.Return) then
      if s.focus.DetailPane? && s.overlay.NoOverlay? then RequestContext else Act(Drill)
    else Nothing
  }

  /** What a key means in a state. */
  function ResolveInput(s: State, key: K.Key): Effect {
    if key.ctrl && (key.input == [0x63] || key.input == [0x64]) then Exit
    else if key.name == Some(K.Escape) then Act(if s.overlay.NoOverlay? then Retreat else CloseOverlay)
    else
      var first := if EditsSearch(s) then EditEffect(key) else LetterEffect(key);
      if first.Nothing? then NavigationEffect(s, key) else first
  }

  /** No key opens the conversation by itself: from the detail pane, Return asks for the context. */
  lemma KeysDoNotDrillIntoConversation(s: State, key: K.Key)
    ensures ResolveInput(s, key) == Act(Drill) ==> !(s.focus.DetailPane? && s.overlay.NoOverlay?)
    ensures ResolveInput(s, key).RequestContext? ==> s.focus.DetailPane? && s.overlay.NoOverlay?
  {}

  /** While a search is edited every printable key is typed, whatever it does elsewhere, and the only keys that
      end the session are the two interrupts; they end it from everywhere. */
  lemma TypingIsTyping(s: State, key: K.Key)
    ensures EditsSearch(s) && Printable(key) ==> ResolveInput(s, key) == Act(Append(key.input))
    ensures EditsSearch(s) && ResolveInput(s, key).Exit? ==> key.ctrl && (key.input == [0x63] || key.input == [0x64])
    ensures key.ctrl && (key.input == [0x63] || key.input == [0x64]) ==> ResolveInput(s, key).Exit?
  {}

  /** The actions of keys that may leave the conversation open. */
  predicate KeepsReading(action: Action) {
    Plain(action) || Moves(action) || action.Retreat?
  }

  lemma ConversationKeys(s: State, key: K.Key)
    requires s.focus.ConversationPane? && ResolveInput(s, key).Act?
    ensures var action := ResolveInput(s, key).action;
            KeepsReading(action) || action.SetScope? || action.EnterSearch?
  {}

  lemma MovesListAlike(m: Model, s: State, action: Action, limits: Option<R.Limits>)
    requires s.focus.ConversationPane? && Moves(action)
    ensures ListsAlike(s, Reduce(m, s, action, limits))
  {
    match action
    case MoveUp => assert Scrolling(s);
    case MoveDown => assert Scrolling(s);
    case PageUp => assert Scrolling(s);
    case PageDown => assert Scrolling(s);
    case JumpFirst => assert Scrolling(s);
    case JumpLast => assert Scrolling(s);
  }

  /** A key that leaves the conversation open leaves the same turn selected. */
  lemma ConversationKeepsTurn(m: Model, s: State, key: K.Key, limits: Option<R.Limits>)
    requires s.focus.ConversationPane? && ResolveInput(s, key).Act?
    requires Reduce(m, s, ResolveInput(s, key).action, limits).focus.ConversationPane?
    ensures ListsAlike(s, Reduce(m, s, ResolveInput(s, key).action, limits))
  {
    var action := ResolveInput(s, key).action;
    ConversationKeys(s, key);
    if Plain(action) {
      PlainActionListsAlike(m, s, action, limits);
    } else if Moves(action) {
      MovesListAlike(m, s, action, limits);
    } else if action.SetScope? || action.EnterSearch? {
      LeavesConversation(m, s, action, limits);
    }
  }

  lemma LeavesConversation(m: Model, s: State, action: Action, limits: Option<R.Limits>)
    requires action.SetScope? || action.EnterSearch?
    ensures Reduce(m, s, action, limits).focus.ProjectsPane?
  {}

  // ------------------------------------------------- the session

  /** The replies and tool calls of a turn. */
  datatype Context = Context(replies: seq<string>, toolCalls: seq<string>)

  /** A snapshot: its read model, the contexts that it carries by turn, and whether a turn's session and
      source are known. */
  datatype Snapshot = Snapshot(model: Model, contexts: map<string, Context>, traceable: Turn -> bool)

  /** A scan in the background. A context load keeps the turn that asked for it and the snapshot that it
      was asked on. */
  datatype Task = Refreshing | LoadingContext(turn: Turn, on: Snapshot)

  /** The variables of the session: `loaded` are the contexts fetched on demand for the snapshot at hand,
      `limits` and `screen` come from the last frame, `inFlight` are the scans not resolved yet. */
  datatype Vars = Vars(
    snapshot: Snapshot, loaded: map<string, Context>, state: State, limits: R.Limits, screen: seq<R.Cell>,
    width: nat, height: nat, busy: bool, finished: bool, inFlight: seq<Task>)

  /** How many rows the overlay, the detail pane and the conversation have at a screen of a given width and
      height; scroll offsets and the message line have no part in it. */
  type Draw = (Snapshot, map<string, Context>, State, nat, nat) -> Counts

  function Unscrolled(s: State): State {
    s.(detailOffset := 0, conversationOffset := 0, overlayOffset := 0, status := None)
  }

  function ScrolledAs(view: R.View, s: State): R.View {
    view.(overlayOffset := s.overlayOffset, detailOffset := s.detailOffset, conversationOffset := s.conversationOffset)
  }

  function ViewOf(draw: Draw, v: Vars): R.View {
    var u := Unscrolled(v.state);
    ScrolledAs(ViewFrom(v.snapshot.model, u, draw(v.snapshot, v.loaded, u, v.width, v.height)), v.state)
  }

  function Painted(draw: Draw, v: Vars): Vars {
    if v.finished then v
    else
      var limits := R.FrameLimits(ViewOf(draw, v), v.width, v.height);
      v.(limits := limits, state := ClampScroll(v.state, limits), screen := R.Frame(ViewOf(draw, v), v.width, v.height))
  }

  function Dispatched(draw: Draw, v: Vars, action: Action): Vars {
    Painted(draw, v.(state := Reduce(v.snapshot.model, v.state, action, Some(v.limits))))
  }

  function Told(kind: Kind, text: string): Action {
    SetStatus(Status(kind, text))
  }

  const REFRESHING := "Refreshing from native source data…"
  const REFRESHED := "Snapshot refreshed."
  const REFRESH_FAILED := "Refresh failed; previous snapshot retained: "
  const LOADING := "Loading full session context…"
  const UNAVAILABLE := "Context unavailable for this turn."
  const LOAD_FAILED := "Context load failed: "

  function RefreshStarted(draw: Draw, v: Vars): Vars {
    if v.busy then v
    else
      var told := Dispatched(draw, v.(busy := true), Told(Busy, REFRESHING));
      told.(inFlight := told.inFlight + [Refreshing])
  }

  function RefreshSucceeded(draw: Draw, v: Vars, rescan: Snapshot): Vars {
    Dispatched(draw, v.(snapshot := rescan, loaded := map[], state := Create(rescan.model)),
               Told(Info, REFRESHED)).(busy := false)
  }

  function RefreshFailed(draw: Draw, v: Vars, message: string): Vars {
    Dispatched(draw, v, Told(Failure, REFRESH_FAILED + message)).(busy := false)
  }

  predicate HasContext(v: Vars, id: string) {
    id in v.loaded || id in v.snapshot.contexts
  }

  function ContextRequested(draw: Draw, v: Vars): Vars {
    var entry := SelectedTurn(v.snapshot.model, v.state);
    if entry.None? then v
    else if HasContext(v, entry.value.id) then Dispatched(draw, v, Drill)
    else if v.busy then v
    else
      var told := Dispatched(draw, v.(busy := true), Told(Busy, LOADING));
      if !v.snapshot.traceable(entry.value) then Dispatched(draw, told, Told(Failure, UNAVAILABLE)).(busy := false)
      else told.(inFlight := told.inFlight + [LoadingContext(entry.value, v.snapshot)])
  }

  /** The view that asked is still there: the detail pane is focused, nothing covers it, and it shows the turn. */
  predicate StillWanted(v: Vars, turn: Turn) {
    && v.state.focus.DetailPane? && v.state.overlay.NoOverlay?
    && SelectedTurn(v.snapshot.model, v.state).Some?
    && SelectedTurn(v.snapshot.model, v.state).value.id == turn.id
  }

  function ContextArrived(draw: Draw, v: Vars, turn: Turn, contexts: map<string, Context>): Vars {
    if v.finished then v.(busy := false)
    else
      var cleared := Dispatched(draw, v.(loaded := contexts + v.loaded), ClearStatus);
      (if StillWanted(cleared, turn) then Dispatched(draw, cleared, Drill) else cleared).(busy := false)
  }

  function ContextFailed(draw: Draw, v: Vars, message: string): Vars {
    Dispatched(draw, v, Told(Failure, LOAD_FAILED + message)).(busy := false)
  }

  function KeyHandled(draw: Draw, v: Vars, key: K.Key): Vars {
    if v.finished then v
    else match ResolveInput(v.state, key)
      case Exit => v.(finished := true)
      case Act(action) => Dispatched(draw, v, action)
      case RequestRefresh => RefreshStarted(draw, v)
      case RequestContext => ContextRequested(draw, v)
      case Nothing => v
  }

  /** What can happen. A resolved scan is named by its place among those in flight, and brings a snapshot
      or a message. */
  datatype Event =
    | KeyPressed(key: K.Key)
    | Resized(width: nat, height: nat)
    | Ended
    | ScanSucceeded(at: nat, result: Snapshot)
    | ScanFailed(at: nat, message: string)

  function Without(tasks: seq<Task>, at: nat): seq<Task>
    requires at < |tasks|
  {
    tasks[..at] + tasks[at + 1..]
  }

  function Step(draw: Draw, v: Vars, e: Event): Vars {
    match e
    case KeyPressed(key) => KeyHandled(draw, v, key)
    case Resized(width, height) => Painted(draw, v.(width := width, height := height))
    case Ended => v.(finished := true)
    case ScanSucceeded(at, result) =>
      if at >= |v.inFlight| then v
      else
        var rest := v.(inFlight := Without(v.inFlight, at));
        (match v.inFlight[at]
         case Refreshing => RefreshSucceeded(draw, rest, result)
         case LoadingContext(turn, _) => ContextArrived(draw, rest, turn, result.contexts))
    case ScanFailed(at, message) =>
      if at >= |v.inFlight| then v
      else
        var rest := v.(inFlight := Without(v.inFlight, at));
        (match v.inFlight[at]
         case Refreshing => RefreshFailed(draw, rest, message)
         case LoadingContext(_, _) => ContextFailed(draw, rest, message))
  }

  function Run(draw: Draw, v: Vars, events: seq<Event>): Vars
    decreases events
  {
    if events == [] then v else Run(draw, Step(draw, v, events[0]), events[1..])
  }

  /** The session as it starts: a scan is done, and the first frame is painted. */
  function Started(draw: Draw, snapshot: Snapshot, state: State, width: nat, height: nat): Vars {
    Painted(draw, Vars(snapshot, map[], state, R.Limits(0, 0, 0), [], width, height, false, false, []))
  }

  // ------------------------------------------------- the frame shows the state

  /** The screen is the frame of the variables as they are, and the offset that the keys move is within the
      bound of that frame. */
  ghost predicate OnScreen(draw: Draw, v: Vars) {
    var view := ViewOf(draw, v);
    && v.screen == R.Frame(view, v.width, v.height)
    && v.limits == R.FrameLimits(view, v.width, v.height)
    && (R.Scrolls(view) ==> R.ActiveOffset(view) <= R.ActiveLimit(view, v.limits))
  }

  lemma ScrollClampsView(draw: Draw, v: Vars, limits: R.Limits)
    ensures var view := ViewOf(draw, v);
            var clamped := ViewOf(draw, v.(limits := limits, state := ClampScroll(v.state, limits)));
            if R.Scrolls(view) then
              clamped == R.ScrolledTo(view, Min(R.ActiveOffset(view), R.ActiveLimit(view, limits)))
            else clamped == view
  {
    assert Unscrolled(ClampScroll(v.state, limits)) == Unscrolled(v.state);
  }

  /** Although offsets are clamped after the frame is drawn, what is painted is the frame of the clamped state. */
  lemma PaintShowsState(draw: Draw, v: Vars)
    requires !v.finished
    ensures OnScreen(draw, Painted(draw, v))
  {
    var view := ViewOf(draw, v);
    var limits := R.FrameLimits(view, v.width, v.height);
    ScrollClampsView(draw, v, limits);
    R.ClampedFrameIsTheSame(view, v.width, v.height);
    var painted := Painted(draw, v);
    var after := ViewOf(draw, v.(limits := limits, state := ClampScroll(v.state, limits)));
    assert ViewOf(draw, painted) == after;
  }

  lemma OnScreenIsPainted(draw: Draw, v: Vars)
    requires OnScreen(draw, v) && !v.finished
    ensures Painted(draw, v) == v
  {}

  // ------------------------------------------------- the invariant

  ghost predicate Orderly(v: Vars) {
    && |v.inFlight| <= 1
    && (v.busy <==> v.inFlight != [])
    && (forall task | task in v.inFlight && task.LoadingContext? :: task.on == v.snapshot)
  }

  ghost predicate Reading(v: Vars) {
    v.state.focus.ConversationPane? ==> SelectedTurn(v.snapshot.model, v.state).Some?
  }

  /** At most one scan is in flight, and the flag says so; the snapshot is the one that a pending context load
      was asked on; the selections are in bounds; an open conversation has its turn; and the screen shows the
      state, scrolled within its bounds. */
  ghost predicate Invariant(draw: Draw, v: Vars) {
    && Orderly(v)
    && InBounds(v.snapshot.model, v.state)
    && Reading(v)
    && (!v.finished ==> OnScreen(draw, v))
  }

  /** What holds of the state between two dispatches. */
  ghost predicate Settled(draw: Draw, v: Vars) {
    InBounds(v.snapshot.model, v.state) && Reading(v) && (!v.finished ==> OnScreen(draw, v))
  }

  lemma PaintSettles(draw: Draw, v: Vars)
    requires InBounds(v.snapshot.model, v.state) && Reading(v)
    ensures Settled(draw, Painted(draw, v))
  {
    if !v.finished {
      PaintShowsState(draw, v);
      PaintKeepsSelection(draw, v);
    }
  }

  /** A repaint changes nothing but scroll offsets, the bounds and the screen. */
  lemma PaintKeepsSelection(draw: Draw, v: Vars)
    ensures var p := Painted(draw, v);
            && ListsAlike(v.state, p.state) && p.state.focus == v.state.focus && p.state.overlay == v.state.overlay
            && p.state.status == v.state.status
            && SelectedTurn(v.snapshot.model, p.state) == SelectedTurn(v.snapshot.model, v.state)
            && p == v.(state := p.state, limits := p.limits, screen := p.screen)
    ensures InBounds(v.snapshot.model, v.state) ==> InBounds(v.snapshot.model, Painted(draw, v).state)
  {
    var p := Painted(draw, v);
    AlikeSelectsAlike(v.snapshot.model, v.state, p.state);
    if InBounds(v.snapshot.model, v.state) {
      BoundsCarryOver(v.snapshot.model, v.state, p.state);
    }
  }

  lemma AlikeSelectsAlike(m: Model, s: State, t: State)
    requires ListsAlike(s, t)
    ensures SelectedTurn(m, s) == SelectedTurn(m, t)
  {
    assert SearchGroups(m, s) == SearchGroups(m, t);
  }

  /** An action that leaves a closed conversation closed settles. */
  lemma DispatchSettles(draw: Draw, v: Vars, action: Action)
    requires InBounds(v.snapshot.model, v.state)
    requires var t := Reduce(v.snapshot.model, v.state, action, Some(v.limits));
             t.focus.ConversationPane? ==> SelectedTurn(v.snapshot.model, t).Some?
    ensures Settled(draw, Dispatched(draw, v, action))
  {
    ReduceKeepsBounds(v.snapshot.model, v.state, action, Some(v.limits));
    PaintSettles(draw, v.(state := Reduce(v.snapshot.model, v.state, action, Some(v.limits))));
  }

  /** Saying something selects nothing else. */
  lemma DispatchedListsAlike(draw: Draw, v: Vars, action: Action)
    requires action.SetStatus?
    ensures ListsAlike(v.state, Dispatched(draw, v, action).state)
    ensures Dispatched(draw, v, action).state.focus == v.state.focus
  {
    PaintKeepsSelection(draw, v.(state := Reduce(v.snapshot.model, v.state, action, Some(v.limits))));
  }

  /** What a dispatch leaves alone. */
  lemma DispatchKeeps(draw: Draw, v: Vars, action: Action)
    ensures var d := Dispatched(draw, v, action);
            && d.snapshot == v.snapshot && d.loaded == v.loaded && d.busy == v.busy && d.finished == v.finished
            && d.inFlight == v.inFlight && d.width == v.width && d.height == v.height
  {}

  /** Telling something changes the message and, once the screen shows the state, nothing else of the state. */
  lemma TellingKeepsState(draw: Draw, v: Vars, action: Action)
    requires action.SetStatus? || action.ClearStatus?
    requires !v.finished ==> OnScreen(draw, v)
    ensures Dispatched(draw, v, action)
         == v.(state := v.state.(status := if action.SetStatus? then Some(action.status) else None))
  {
    var t := v.(state := v.state.(status := if action.SetStatus? then Some(action.status) else None));
    if !v.finished {
      assert Unscrolled(t.state) == Unscrolled(v.state);
      assert ViewOf(draw, t) == ViewOf(draw, v);
      OnScreenIsPainted(draw, t);
    }
  }

  // ------------------------------------------------- every step keeps the invariant

  lemma TellingSettles(draw: Draw, v: Vars, action: Action)
    requires Settled(draw, v) && (action.SetStatus? || action.ClearStatus?)
    ensures Settled(draw, Dispatched(draw, v, action))
  {
    var t := Reduce(v.snapshot.model, v.state, action, Some(v.limits));
    AlikeSelectsAlike(v.snapshot.model, v.state, t);
    DispatchSettles(draw, v, action);
  }

  lemma DrillSettles(draw: Draw, v: Vars)
    requires Settled(draw, v) && SelectedTurn(v.snapshot.model, v.state).Some?
    ensures Settled(draw, Dispatched(draw, v, Drill))
  {
    var t := Reduce(v.snapshot.model, v.state, Drill, Some(v.limits));
    PlainActionListsAlike(v.snapshot.model, v.state, Drill, Some(v.limits));
    AlikeSelectsAlike(v.snapshot.model, v.state, t);
    DispatchSettles(draw, v, Drill);
  }

  lemma KeyActionSettles(draw: Draw, v: Vars, key: K.Key)
    requires Settled(draw, v) && ResolveInput(v.state, key).Act?
    ensures Settled(draw, Dispatched(draw, v, ResolveInput(v.state, key).action))
  {
    var action := ResolveInput(v.state, key).action;
    var t := Reduce(v.snapshot.model, v.state, action, Some(v.limits));
    if v.state.focus.ConversationPane? {
      if t.focus.ConversationPane? {
        ConversationKeepsTurn(v.snapshot.model, v.state, key, Some(v.limits));
        AlikeSelectsAlike(v.snapshot.model, v.state, t);
      }
    } else {
      OnlyDrillOpensConversation(v.snapshot.model, v.state, action, Some(v.limits));
      KeysDoNotDrillIntoConversation(v.state, key);
    }
    DispatchSettles(draw, v, action);
  }

  /** Busy and in-flight changes do not unsettle. */
  lemma SettledApart(draw: Draw, v: Vars, busy: bool, tasks: seq<Task>)
    requires Settled(draw, v)
    ensures Settled(draw, v.(busy := busy, inFlight := tasks))
  {
    assert ViewOf(draw, v.(busy := busy, inFlight := tasks)) == ViewOf(draw, v);
  }

  lemma RefreshStartedKeeps(draw: Draw, v: Vars)
    requires Invariant(draw, v)
    ensures Invariant(draw, RefreshStarted(draw, v))
  {
    if !v.busy {
      var begun := v.(busy := true);
      SettledApart(draw, v, true, v.inFlight);
      assert begun == v.(busy := true, inFlight := v.inFlight);
      TellingSettles(draw, begun, Told(Busy, REFRESHING));
      var told := Dispatched(draw, begun, Told(Busy, REFRESHING));
      DispatchKeeps(draw, begun, Told(Busy, REFRESHING));
      SettledApart(draw, told, true, told.inFlight + [Refreshing]);
      assert RefreshStarted(draw, v) == told.(busy := true, inFlight := told.inFlight + [Refreshing]);
    }
  }

  lemma ContextRequestedKeeps(draw: Draw, v: Vars)
    requires Invariant(draw, v)
    ensures Invariant(draw, ContextRequested(draw, v))
  {
    var entry := SelectedTurn(v.snapshot.model, v.state);
    if entry.Some? && HasContext(v, entry.value.id) {
      DrillSettles(draw, v);
      DispatchKeeps(draw, v, Drill);
    } else if entry.Some? && !v.busy {
      ContextLoadKeeps(draw, v, entry.value);
    }
  }

  lemma ContextLoadKeeps(draw: Draw, v: Vars, turn: Turn)
    requires Invariant(draw, v) && !v.busy
    requires SelectedTurn(v.snapshot.model, v.state) == Some(turn) && !HasContext(v, turn.id)
    ensures Invariant(draw, ContextRequested(draw, v))
  {
    var begun := v.(busy := true);
    SettledApart(draw, v, true, v.inFlight);
    assert begun == v.(busy := true, inFlight := v.inFlight);
    TellingSettles(draw, begun, Told(Busy, LOADING));
    DispatchKeeps(draw, begun, Told(Busy, LOADING));
    var told := Dispatched(draw, begun, Told(Busy, LOADING));
    if v.snapshot.traceable(turn) {
      var tasks := told.inFlight + [LoadingContext(turn, v.snapshot)];
      SettledApart(draw, told, true, tasks);
      assert ContextRequested(draw, v) == told.(busy := true, inFlight := tasks);
    } else {
      TellingSettles(draw, told, Told(Failure, UNAVAILABLE));
      DispatchKeeps(draw, told, Told(Failure, UNAVAILABLE));
      var after := Dispatched(draw, told, Told(Failure, UNAVAILABLE));
      SettledApart(draw, after, false, after.inFlight);
      assert ContextRequested(draw, v) == after.(busy := false, inFlight := after.inFlight);
    }
  }

  lemma KeyKeeps(draw: Draw, v: Vars, key: K.Key)
    requires Invariant(draw, v)
    ensures Invariant(draw, KeyHandled(draw, v, key))
  {
    if !v.finished {
      match ResolveInput(v.state, key)
      case Exit => FinishKeeps(draw, v);
      case Act(action) =>
        KeyActionSettles(draw, v, key);
        DispatchKeeps(draw, v, action);
      case RequestRefresh => RefreshStartedKeeps(draw, v);
      case RequestContext => ContextRequestedKeeps(draw, v);
      case Nothing =>
    }
  }

  lemma FinishKeeps(draw: Draw, v: Vars)
    requires Invariant(draw, v)
    ensures Invariant(draw, v.(finished := true))
  {}

  lemma CreateSettles(draw: Draw, v: Vars, rescan: Snapshot)
    ensures var w := v.(snapshot := rescan, loaded := map[], state := Create(rescan.model));
            Settled(draw, Dispatched(draw, w, Told(Info, REFRESHED)))
  {
    var w := v.(snapshot := rescan, loaded := map[], state := Create(rescan.model));
    CreatedInBounds(rescan.model);
    DispatchSettles(draw, w, Told(Info, REFRESHED));
  }

  lemma CreatedInBounds(m: Model)
    ensures InBounds(m, Create(m)) && Create(m).focus.ProjectsPane?
  {
    ClampIsRetraction(m, START);
  }

  lemma RefreshSucceededKeeps(draw: Draw, v: Vars, rescan: Snapshot)
    requires v.inFlight == []
    ensures Invariant(draw, RefreshSucceeded(draw, v, rescan))
  {
    var w := v.(snapshot := rescan, loaded := map[], state := Create(rescan.model));
    CreateSettles(draw, v, rescan);
    DispatchKeeps(draw, w, Told(Info, REFRESHED));
    var after := Dispatched(draw, w, Told(Info, REFRESHED));
    SettledApart(draw, after, false, after.inFlight);
    assert RefreshSucceeded(draw, v, rescan) == after.(busy := false, inFlight := after.inFlight);
  }

  lemma FailureKeeps(draw: Draw, v: Vars, text: string)
    requires Settled(draw, v) && v.inFlight == []
    ensures Invariant(draw, Dispatched(draw, v, Told(Failure, text)).(busy := false))
  {
    TellingSettles(draw, v, Told(Failure, text));
    DispatchKeeps(draw, v, Told(Failure, text));
    var after := Dispatched(draw, v, Told(Failure, text));
    SettledApart(draw, after, false, after.inFlight);
    assert after.(busy := false) == after.(busy := false, inFlight := after.inFlight);
  }

  lemma ContextStoredSettles(draw: Draw, v: Vars, contexts: map<string, Context>)
    requires Settled(draw, v)
    ensures Settled(draw, Dispatched(draw, v.(loaded := contexts + v.loaded), ClearStatus))
  {
    var stored := v.(loaded := contexts + v.loaded);
    var t := Reduce(v.snapshot.model, v.state, ClearStatus, Some(v.limits));
    AlikeSelectsAlike(v.snapshot.model, v.state, t);
    DispatchSettles(draw, stored, ClearStatus);
  }

  lemma ContextArrivedKeeps(draw: Draw, v: Vars, turn: Turn, contexts: map<string, Context>)
    requires Settled(draw, v) && v.inFlight == []
    ensures Invariant(draw, ContextArrived(draw, v, turn, contexts))
  {
    if v.finished {
      assert ContextArrived(draw, v, turn, contexts) == v.(busy := false);
    } else {
      var stored := v.(loaded := contexts + v.loaded);
      var cleared := Dispatched(draw, stored, ClearStatus);
      ContextStoredSettles(draw, v, contexts);
      DispatchKeeps(draw, stored, ClearStatus);
      if StillWanted(cleared, turn) {
        ContextOpenedKeeps(draw, cleared);
      } else {
        SettledApart(draw, cleared, false, cleared.inFlight);
        assert cleared.(busy := false) == cleared.(busy := false, inFlight := cleared.inFlight);
      }
    }
  }

  lemma ContextOpenedKeeps(draw: Draw, v: Vars)
    requires Settled(draw, v) && v.inFlight == [] && SelectedTurn(v.snapshot.model, v.state).Some?
    ensures Invariant(draw, Dispatched(draw, v, Drill).(busy := false))
  {
    DrillSettles(draw, v);
    DispatchKeeps(draw, v, Drill);
    var after := Dispatched(draw, v, Drill);
    SettledApart(draw, after, false, after.inFlight);
    assert after.(busy := false) == after.(busy := false, inFlight := after.inFlight);
  }

  lemma ResolutionKeeps(draw: Draw, v: Vars, e: Event)
    requires Invariant(draw, v) && (e.ScanSucceeded? || e.ScanFailed?)
    ensures Invariant(draw, Step(draw, v, e))
  {
    if e.at < |v.inFlight| {
      var rest := v.(inFlight := Without(v.inFlight, e.at));
      assert rest.inFlight == [];
      SettledApart(draw, v, v.busy, []);
      assert rest == v.(busy := v.busy, inFlight := []);
      match v.inFlight[e.at]
      case Refreshing =>
        if e.ScanSucceeded? {
          RefreshSucceededKeeps(draw, rest, e.result);
        } else {
          FailureKeeps(draw, rest, REFRESH_FAILED + e.message);
        }
      case LoadingContext(turn, _) =>
        if e.ScanSucceeded? {
          ContextArrivedKeeps(draw, rest, turn, e.result.contexts);
        } else {
          FailureKeeps(draw, rest, LOAD_FAILED + e.message);
        }
    }
  }

  lemma StepKeepsInvariant(draw: Draw, v: Vars, e: Event)
    requires Invariant(draw, v)
    ensures Invariant(draw, Step(draw, v, e))
  {
    match e
    case KeyPressed(key) => KeyKeeps(draw, v, key);
    case Resized(width, height) => PaintSettles(draw, v.(width := width, height := height));
    case Ended => FinishKeeps(draw, v);
    case ScanSucceeded(_, _) => ResolutionKeeps(draw, v, e);
    case ScanFailed(_, _) => ResolutionKeeps(draw, v, e);
  }

  /** Whatever happens in a session, in whatever order, the invariant holds throughout. */
  lemma {:induction false} RunKeepsInvariant(draw: Draw, v: Vars, events: seq<Event>)
    requires Invariant(draw, v)
    ensures Invariant(draw, Run(draw, v, events))
    decreases events
  {
    if events != [] {
      StepKeepsInvariant(draw, v, events[0]);
      RunKeepsInvariant(draw, Step(draw, v, events[0]), events[1..]);
    }
  }

  // ------------------------------------------------- where sessions start

  /** The one of a project, a session and a turn that the command line may name. */
  datatype Target = Nowhere | ProjectRef(ref: string) | SessionRef(ref: string) | TurnRef(ref: string)

  /** What the command line names: a target, and a query to search for. */
  datatype Entry = Entry(target: Target, search: Option<Text>)

  function Targeted(m: Model, s: State, target: Target): State {
    match target
    case Nowhere => s
    case ProjectRef(ref) => Reduce(m, s, OpenProject(ref), None)
    case SessionRef(ref) => Reduce(m, s, OpenSession(ref), None)
    case TurnRef(ref) => Reduce(m, s, OpenTurn(ref), None)
  }

  function Entered(m: Model, s: State, entry: Entry): State {
    var there := Targeted(m, s, entry.target);
    if entry.search.Some? then Reduce(m, there, OpenSearch(entry.search.value), None) else there
  }

  predicate Fit(m: Model, s: State) {
    InBounds(m, s) && !s.focus.ConversationPane?
  }

  lemma OpeningFits(m: Model, s: State, action: Action)
    requires Fit(m, s) && (action.OpenProject? || action.OpenSession? || action.OpenTurn? || action.OpenSearch?)
    ensures Fit(m, Reduce(m, s, action, None))
  {
    ReduceKeepsBounds(m, s, action, None);
    OnlyDrillOpensConversation(m, s, action, None);
  }

  lemma TargetedFits(m: Model, s: State, target: Target)
    requires Fit(m, s)
    ensures Fit(m, Targeted(m, s, target))
  {
    match target
    case Nowhere =>
    case ProjectRef(ref) => OpeningFits(m, s, OpenProject(ref));
    case SessionRef(ref) => OpeningFits(m, s, OpenSession(ref));
    case TurnRef(ref) => OpeningFits(m, s, OpenTurn(ref));
  }

  lemma EnteredFits(m: Model, s: State, entry: Entry)
    requires Fit(m, s)
    ensures Fit(m, Entered(m, s, entry))
  {
    TargetedFits(m, s, entry.target);
    if entry.search.Some? {
      OpeningFits(m, Targeted(m, s, entry.target), OpenSearch(entry.search.value));
    }
  }

  /** The snapshot lists what the command line names. */
  predicate Found(m: Model, target: Target) {
    match target
    case Nowhere => true
    case ProjectRef(ref) => ProjectIndex(m, ref) >= 0
    case SessionRef(ref) => m.getSession(ref).Some? && SessionIndex(m, m.getSession(ref).value) >= 0
    case TurnRef(ref) => m.getTurn(ref).Some? && ProjectListing(m.projects, m.getTurn(ref).value) < |m.projects|
  }

  /** The browser shows what the command line names: the turns of the project or session with the first of them
      selected, or the turn itself; or what it did before. */
  predicate Shows(m: Model, before: State, s: State, target: Target)
    requires Found(m, target)
  {
    match target
    case Nowhere => s == before
    case ProjectRef(ref) =>
      var turns := m.projects[ProjectIndex(m, ref)].turns;
      VisibleTurns(m, s) == turns && SelectedTurn(m, s) == At(turns, 0) && s.focus.TurnsPane?
    case SessionRef(ref) =>
      var turns := m.sessions[SessionIndex(m, m.getSession(ref).value)].turns;
      && VisibleTurns(m, s) == turns && SelectedTurn(m, s) == At(turns, 0)
      && s.focus == (if turns != [] then R.TurnsPane else R.DetailPane)
    case TurnRef(ref) =>
      SelectedTurn(m, s).Some? && SelectedTurn(m, s).value.id == m.getTurn(ref).value && s.focus.DetailPane?
  }

  /** As the browser starts: browsing projects, with nothing to say. */
  predicate Fresh(s: State) {
    s.scope.Projects? && s.mode.Browse? && s.status == None
  }

  lemma CreatedFresh(m: Model)
    ensures Fresh(Create(m))
  {}

  lemma SessionFoundShows(m: Model, s: State, ref: string)
    requires Found(m, SessionRef(ref)) && Fresh(s)
    ensures var t := OpenSessionRef(m, s, ref);
            Shows(m, s, t, SessionRef(ref)) && t.mode.Browse? && t.status == None
  {
    OpenSessionSelects(m, s, ref);
    SessionOpenedAt(m, s, ref);
  }

  lemma ProjectFoundShows(m: Model, s: State, ref: string)
    requires Found(m, ProjectRef(ref)) && Fresh(s)
    ensures var t := OpenProjectRef(m, s, ref);
            Shows(m, s, t, ProjectRef(ref)) && t.mode.Browse? && t.status == None
  {
    OpenProjectShows(m, s, ref);
  }

  lemma TurnFoundShows(m: Model, s: State, ref: string)
    requires Found(m, TurnRef(ref)) && Fresh(s)
    ensures var t := OpenTurnRef(m, s, ref);
            Shows(m, s, t, TurnRef(ref)) && t.mode.Browse? && t.status == None
  {
    OpenTurnSelects(m, s, ref);
  }

  /** The state that opening a target reduces to. */
  function Opened(m: Model, s: State, target: Target): State {
    match target
    case Nowhere => s
    case ProjectRef(ref) => OpenProjectRef(m, s, ref)
    case SessionRef(ref) => OpenSessionRef(m, s, ref)
    case TurnRef(ref) => OpenTurnRef(m, s, ref)
  }

  lemma ReducedProject(m: Model, s: State, ref: string)
    ensures Reduce(m, s, OpenProject(ref), None) == OpenProjectRef(m, s, ref)
  {}

  lemma ReducedSession(m: Model, s: State, ref: string)
    ensures Reduce(m, s, OpenSession(ref), None) == OpenSessionRef(m, s, ref)
  {}

  lemma ReducedTurn(m: Model, s: State, ref: string)
    ensures Reduce(m, s, OpenTurn(ref), None) == OpenTurnRef(m, s, ref)
  {}

  lemma TargetedIsOpened(m: Model, s: State, target: Target)
    ensures Targeted(m, s, target) == Opened(m, s, target)
  {
    match target
    case Nowhere =>
    case ProjectRef(ref) => ReducedProject(m, s, ref);
    case SessionRef(ref) => ReducedSession(m, s, ref);
    case TurnRef(ref) => ReducedTurn(m, s, ref);
  }

  lemma OpenedShows(m: Model, s: State, target: Target)
    requires Found(m, target) && Fresh(s)
    ensures var t := Opened(m, s, target);
            Shows(m, s, t, target) && t.mode.Browse? && t.status == None
  {
    match target
    case Nowhere =>
    case ProjectRef(ref) => ProjectFoundShows(m, s, ref);
    case SessionRef(ref) => SessionFoundShows(m, s, ref);
    case TurnRef(ref) => TurnFoundShows(m, s, ref);
  }

  lemma FoundShows(m: Model, s: State, target: Target)
    requires Found(m, target) && Fresh(s)
    ensures var t := Targeted(m, s, target);
            Shows(m, s, t, target) && t.mode.Browse? && t.status == None
  {
    TargetedIsOpened(m, s, target);
    OpenedShows(m, s, target);
  }

  lemma SessionOpenedAt(m: Model, s: State, ref: string)
    requires m.getSession(ref).Some? && SessionIndex(m, m.getSession(ref).value) >= 0
    ensures OpenSessionRef(m, s, ref).session == SessionIndex(m, m.getSession(ref).value)
  {}

  lemma NotFoundSays(m: Model, s: State, target: Target)
    requires !Found(m, target)
    ensures var t := Targeted(m, s, target);
            t.status.Some? && t.status.value.kind.Failure? && t == s.(status := t.status)
  {
    TargetedIsOpened(m, s, target);
    match target
    case Nowhere =>
    case ProjectRef(ref) => MissingProject(m, s, ref);
    case SessionRef(ref) => MissingSession(m, s, ref);
    case TurnRef(ref) => MissingTurn(m, s, ref);
  }

  /** Every entry point reaches what it names: if the snapshot lists it, the browser starts with it shown and
      selected and no message; if not, the browser starts as usual with a message that says so. */
  lemma EntryPointsReach(m: Model, target: Target)
    ensures var s := Targeted(m, Create(m), target);
            && (Found(m, target) ==> Shows(m, Create(m), s, target) && s.status == None)
            && (!Found(m, target) ==>
                  s.status.Some? && s.status.value.kind.Failure? && s == Create(m).(status := s.status))
  {
    CreatedFresh(m);
    if Found(m, target) {
      FoundShows(m, Create(m), target);
    } else {
      NotFoundSays(m, Create(m), target);
    }
  }

  lemma SearchLiesOver(m: Model, s: State, query: Text)
    requires InBounds(m, s) && s.mode.Browse? && (s.status.Some? ==> s.status.value.kind.Failure?)
    ensures var t := Reduce(m, s, OpenSearch(query), None);
            var back := Reduce(m, t, Retreat, None);
            && t.mode.Search? && t.query == query && (SearchRuns(t) <==> query != []) && t.status == None
            && back.mode.Browse? && VisibleTurns(m, back) == VisibleTurns(m, s)
            && SelectedTurn(m, back) == SelectedTurn(m, s)
  {
    var t := Reduce(m, s, OpenSearch(query), None);
    OpeningSearchBrowsesAlike(m, s, query);
    ReduceKeepsBounds(m, s, OpenSearch(query), None);
    QueryRunsIff(m, s.(mode := Search, focus := R.ProjectsPane), query, true);
    RetreatBrowsesAlike(m, t);
    SelectedAlike(m, s, Retreated(m, t));
  }

  /** A search opened along with a target lies over it: Escape leads back to what the target shows, with the same
      turn selected. The search clears the message about a target that is not there. */
  lemma EntrySearchLiesOver(m: Model, target: Target, query: Text)
    ensures var under, s := Targeted(m, Create(m), target), Entered(m, Create(m), Entry(target, Some(query)));
            var back := Reduce(m, s, Retreat, None);
            && s.mode.Search? && s.query == query && (SearchRuns(s) <==> query != []) && s.status == None
            && back.mode.Browse?
            && VisibleTurns(m, back) == VisibleTurns(m, under) && SelectedTurn(m, back) == SelectedTurn(m, under)
  {
    CreatedInBounds(m);
    TargetedFits(m, Create(m), target);
    CreatedFresh(m);
    TargetedBrowses(m, Create(m), target);
    SearchLiesOver(m, Targeted(m, Create(m), target), query);
  }

  lemma TargetedBrowses(m: Model, s: State, target: Target)
    requires Fresh(s)
    ensures var t := Targeted(m, s, target);
            t.mode.Browse? && (t.status.Some? ==> t.status.value.kind.Failure?)
  {
    if Found(m, target) {
      FoundShows(m, s, target);
    } else {
      NotFoundSays(m, s, target);
    }
  }

  /** Every session starts in order, wherever the command line enters it, and stays so to its end. */
  lemma SessionsAreOrderly(draw: Draw, snapshot: Snapshot, entry: Entry, width: nat, height: nat, events: seq<Event>)
    ensures var entered := Entered(snapshot.model, Create(snapshot.model), entry);
            Invariant(draw, Run(draw, Started(draw, snapshot, entered, width, height), events))
  {
    var state := Entered(snapshot.model, Create(snapshot.model), entry);
    CreatedInBounds(snapshot.model);
    EnteredFits(snapshot.model, Create(snapshot.model), entry);
    StartedInOrder(draw, snapshot, state, width, height);
    RunKeepsInvariant(draw, Started(draw, snapshot, state, width, height), events);
  }

  lemma StartedInOrder(draw: Draw, snapshot: Snapshot, state: State, width: nat, height: nat)
    requires Fit(snapshot.model, state)
    ensures Invariant(draw, Started(draw, snapshot, state, width, height))
  {
    var v := Vars(snapshot, map[], state, R.Limits(0, 0, 0), [], width, height, false, false, []);
    PaintSettles(draw, v);
    PaintKeepsSelection(draw, v);
  }

  // ------------------------------------------------- scans

  /** A resolved scan always frees the session for the next one. */
  lemma ResolutionFrees(draw: Draw, v: Vars, e: Event)
    requires Invariant(draw, v) && (e.ScanSucceeded? || e.ScanFailed?) && e.at < |v.inFlight|
    ensures !Step(draw, v, e).busy && Step(draw, v, e).inFlight == []
  {
    StepKeepsInvariant(draw, v, e);
    assert Without(v.inFlight, e.at) == [];
  }

  /** A scan that fails leaves everything as it was, but for the message and the flag. */
  lemma FailedScanKeepsSession(draw: Draw, v: Vars, at: nat, message: string)
    requires Invariant(draw, v) && at < |v.inFlight|
    ensures var told := (if v.inFlight[at].Refreshing? then REFRESH_FAILED else LOAD_FAILED) + message;
            Step(draw, v, ScanFailed(at, message))
              == v.(state := v.state.(status := Some(Status(Failure, told))), busy := false, inFlight := [])
  {
    var rest := v.(inFlight := Without(v.inFlight, at));
    assert rest.inFlight == [];
    SettledApart(draw, v, v.busy, []);
    assert rest == v.(busy := v.busy, inFlight := []);
    var told := (if v.inFlight[at].Refreshing? then REFRESH_FAILED else LOAD_FAILED) + message;
    TellingKeepsState(draw, rest, Told(Failure, told));
  }

  /** A scan starts only when none is in flight. */
  lemma ScansStartAlone(draw: Draw, v: Vars, e: Event)
    requires Invariant(draw, v) && |Step(draw, v, e).inFlight| > |v.inFlight|
    ensures v.inFlight == [] && !v.busy && e.KeyPressed?
  {
    StepKeepsInvariant(draw, v, e);
  }

  predicate Extends(before: map<string, Context>, after: map<string, Context>) {
    forall id | id in before :: id in after && after[id] == before[id]
  }

  /** The snapshot is replaced by nothing but a refresh that succeeds, and until then a context that was fetched
      for a turn stays as it is. */
  lemma OnlyRefreshReplacesSnapshot(draw: Draw, v: Vars, e: Event)
    requires !(e.ScanSucceeded? && e.at < |v.inFlight| && v.inFlight[e.at].Refreshing?)
    ensures Step(draw, v, e).snapshot == v.snapshot && Extends(v.loaded, Step(draw, v, e).loaded)
  {
    if e.KeyPressed? {
      KeyKeepsSnapshot(draw, v, e.key);
    } else if e.ScanSucceeded? && e.at < |v.inFlight| {
      var rest := v.(inFlight := Without(v.inFlight, e.at));
      ArrivalKeepsSnapshot(draw, rest, v.inFlight[e.at].turn, e.result.contexts);
    }
  }

  lemma KeyKeepsSnapshot(draw: Draw, v: Vars, key: K.Key)
    ensures KeyHandled(draw, v, key).snapshot == v.snapshot && KeyHandled(draw, v, key).loaded == v.loaded
  {
    if !v.finished {
      match ResolveInput(v.state, key)
      case Act(action) => DispatchKeeps(draw, v, action);
      case RequestRefresh => RefreshKeepsSnapshot(draw, v);
      case RequestContext => RequestKeepsSnapshot(draw, v);
      case _ =>
    }
  }

  lemma RefreshKeepsSnapshot(draw: Draw, v: Vars)
    ensures RefreshStarted(draw, v).snapshot == v.snapshot && RefreshStarted(draw, v).loaded == v.loaded
  {
    DispatchKeeps(draw, v.(busy := true), Told(Busy, REFRESHING));
  }

  lemma RequestKeepsSnapshot(draw: Draw, v: Vars)
    ensures ContextRequested(draw, v).snapshot == v.snapshot && ContextRequested(draw, v).loaded == v.loaded
  {
    DispatchKeeps(draw, v, Drill);
    DispatchKeeps(draw, v.(busy := true), Told(Busy, LOADING));
    DispatchKeeps(draw, Dispatched(draw, v.(busy := true), Told(Busy, LOADING)), Told(Failure, UNAVAILABLE));
  }

  lemma ArrivalKeepsSnapshot(draw: Draw, v: Vars, turn: Turn, contexts: map<string, Context>)
    ensures ContextArrived(draw, v, turn, contexts).snapshot == v.snapshot
    ensures Extends(v.loaded, ContextArrived(draw, v, turn, contexts).loaded)
  {
    if !v.finished {
      var stored := v.(loaded := contexts + v.loaded);
      DispatchKeeps(draw, stored, ClearStatus);
      DispatchKeeps(draw, Dispatched(draw, stored, ClearStatus), Drill);
    }
  }

  // ------------------------------------------------- opening the conversation

  /** What opens the conversation in a state with the detail pane uncovered: Return, when the context of the
      selected turn is there; or a context that arrives for the turn that is still selected. */
  predicate Opens(v: Vars, e: Event) {
    var selected := SelectedTurn(v.snapshot.model, v.state);
    && !v.finished && v.state.focus.DetailPane? && v.state.overlay.NoOverlay? && selected.Some?
    && (match e
        case KeyPressed(key) => ResolveInput(v.state, key).RequestContext? && HasContext(v, selected.value.id)
        case ScanSucceeded(at, _) =>
          at < |v.inFlight| && v.inFlight[at].LoadingContext? && v.inFlight[at].turn.id == selected.value.id
        case _ => false)
  }

  lemma TellingKeepsFocus(draw: Draw, v: Vars, action: Action)
    requires action.SetStatus? || action.ClearStatus?
    ensures var d := Dispatched(draw, v, action);
            && d.state.focus == v.state.focus && d.state.overlay == v.state.overlay
            && SelectedTurn(v.snapshot.model, d.state) == SelectedTurn(v.snapshot.model, v.state)
  {
    var t := v.(state := Reduce(v.snapshot.model, v.state, action, Some(v.limits)));
    AlikeSelectsAlike(v.snapshot.model, v.state, t.state);
    PaintKeepsSelection(draw, t);
  }

  lemma DispatchedFocus(draw: Draw, v: Vars, action: Action)
    ensures Dispatched(draw, v, action).state.focus == Reduce(v.snapshot.model, v.state, action, Some(v.limits)).focus
  {
    PaintKeepsSelection(draw, v.(state := Reduce(v.snapshot.model, v.state, action, Some(v.limits))));
  }

  lemma KeyOpensIff(draw: Draw, v: Vars, key: K.Key)
    requires !v.state.focus.ConversationPane?
    ensures KeyHandled(draw, v, key).state.focus.ConversationPane? <==> Opens(v, KeyPressed(key))
  {
    KeysDoNotDrillIntoConversation(v.state, key);
    if !v.finished {
      match ResolveInput(v.state, key)
      case Act(action) =>
        OnlyDrillOpensConversation(v.snapshot.model, v.state, action, Some(v.limits));
        DispatchedFocus(draw, v, action);
      case RequestRefresh => TellingKeepsFocus(draw, v.(busy := true), Told(Busy, REFRESHING));
      case RequestContext => RequestOpensIff(draw, v);
      case _ =>
    }
  }

  lemma DrillOpens(draw: Draw, v: Vars)
    requires v.state.focus.DetailPane? && v.state.overlay.NoOverlay?
    ensures Dispatched(draw, v, Drill).state.focus.ConversationPane?
  {
    DispatchedFocus(draw, v, Drill);
  }

  lemma LoadDoesNotOpen(draw: Draw, v: Vars, turn: Turn)
    requires !v.state.focus.ConversationPane?
    requires SelectedTurn(v.snapshot.model, v.state) == Some(turn) && !HasContext(v, turn.id)
    ensures !ContextRequested(draw, v).state.focus.ConversationPane?
  {
    if !v.busy {
      var begun := v.(busy := true);
      TellingKeepsFocus(draw, begun, Told(Busy, LOADING));
      if !v.snapshot.traceable(turn) {
        TellingKeepsFocus(draw, Dispatched(draw, begun, Told(Busy, LOADING)), Told(Failure, UNAVAILABLE));
      }
    }
  }

  lemma RequestOpensIff(draw: Draw, v: Vars)
    requires v.state.focus.DetailPane? && v.state.overlay.NoOverlay?
    ensures var selected := SelectedTurn(v.snapshot.model, v.state);
            ContextRequested(draw, v).state.focus.ConversationPane? <==>
              selected.Some? && HasContext(v, selected.value.id)
  {
    var selected := SelectedTurn(v.snapshot.model, v.state);
    if selected.Some? {
      if HasContext(v, selected.value.id) {
        DrillOpens(draw, v);
      } else {
        LoadDoesNotOpen(draw, v, selected.value);
      }
    }
  }

  lemma ArrivalOpensIff(draw: Draw, v: Vars, turn: Turn, contexts: map<string, Context>)
    requires !v.state.focus.ConversationPane?
    ensures ContextArrived(draw, v, turn, contexts).state.focus.ConversationPane?
       <==> !v.finished && StillWanted(v, turn)
  {
    if !v.finished {
      var stored := v.(loaded := contexts + v.loaded);
      var cleared := Dispatched(draw, stored, ClearStatus);
      TellingKeepsFocus(draw, stored, ClearStatus);
      DispatchKeeps(draw, stored, ClearStatus);
      WantedAlike(v, cleared, turn);
      if StillWanted(v, turn) {
        DrillOpens(draw, cleared);
      }
    }
  }

  lemma WantedAlike(v: Vars, w: Vars, turn: Turn)
    requires v.snapshot == w.snapshot && v.state.focus == w.state.focus && v.state.overlay == w.state.overlay
    requires SelectedTurn(v.snapshot.model, w.state) == SelectedTurn(v.snapshot.model, v.state)
    ensures StillWanted(v, turn) <==> StillWanted(w, turn)
  {}

  /** The conversation opens in no other way: only from the uncovered detail pane of the turn that asked. */
  lemma ConversationOpensIff(draw: Draw, v: Vars, e: Event)
    requires !v.state.focus.ConversationPane?
    ensures Step(draw, v, e).state.focus.ConversationPane? <==> Opens(v, e)
  {
    match e
    case KeyPressed(key) => KeyOpensIff(draw, v, key);
    case Resized(width, height) => PaintKeepsSelection(draw, v.(width := width, height := height));
    case Ended =>
    case ScanSucceeded(at, result) =>
      if at < |v.inFlight| {
        var rest := v.(inFlight := Without(v.inFlight, at));
        if v.inFlight[at].LoadingContext? {
          ArrivalOpensIff(draw, rest, v.inFlight[at].turn, result.contexts);
        } else {
          RefreshClosesConversation(draw, rest, result);
        }
      }
    case ScanFailed(at, message) =>
      if at < |v.inFlight| {
        var rest := v.(inFlight := Without(v.inFlight, at));
        TellingKeepsFocus(draw, rest, Told(Failure, REFRESH_FAILED + message));
        TellingKeepsFocus(draw, rest, Told(Failure, LOAD_FAILED + message));
      }
  }

  lemma RefreshClosesConversation(draw: Draw, v: Vars, rescan: Snapshot)
    ensures !RefreshSucceeded(draw, v, rescan).state.focus.ConversationPane?
  {
    CreatedInBounds(rescan.model);
    TellingKeepsFocus(draw, v.(snapshot := rescan, loaded := map[], state := Create(rescan.model)),
                      Told(Info, REFRESHED));
  }

  /** While the conversation stays open, its turn and its snapshot stay. */
  lemma OpenConversationKeepsTurn(draw: Draw, v: Vars, e: Event)
    requires v.state.focus.ConversationPane? && Step(draw, v, e).state.focus.ConversationPane?
    ensures var w := Step(draw, v, e);
            w.snapshot == v.snapshot
              && SelectedTurn(w.snapshot.model, w.state) == SelectedTurn(v.snapshot.model, v.state)
  {
    match e
    case KeyPressed(key) => KeyKeepsTurn(draw, v, key);
    case Resized(width, height) => PaintKeepsSelection(draw, v.(width := width, height := height));
    case Ended =>
    case ScanSucceeded(at, result) =>
      if at < |v.inFlight| {
        var rest := v.(inFlight := Without(v.inFlight, at));
        if v.inFlight[at].LoadingContext? {
          ArrivalKeepsTurn(draw, rest, v.inFlight[at].turn, result.contexts);
        } else {
          RefreshClosesConversation(draw, rest, result);
        }
      }
    case ScanFailed(at, message) =>
      if at < |v.inFlight| {
        var rest := v.(inFlight := Without(v.inFlight, at));
        TellingKeepsFocus(draw, rest, Told(Failure, REFRESH_FAILED + message));
        TellingKeepsFocus(draw, rest, Told(Failure, LOAD_FAILED + message));
      }
  }

  lemma KeyKeepsTurn(draw: Draw, v: Vars, key: K.Key)
    requires v.state.focus.ConversationPane? && KeyHandled(draw, v, key).state.focus.ConversationPane?
    ensures var w := KeyHandled(draw, v, key);
            w.snapshot == v.snapshot
              && SelectedTurn(w.snapshot.model, w.state) == SelectedTurn(v.snapshot.model, v.state)
  {
    KeyKeepsSnapshot(draw, v, key);
    KeysDoNotDrillIntoConversation(v.state, key);
    if !v.finished {
      match ResolveInput(v.state, key)
      case Act(action) => ActionKeepsTurn(draw, v, key);
      case RequestRefresh => TellingKeepsFocus(draw, v.(busy := true), Told(Busy, REFRESHING));
      case _ =>
    }
  }

  lemma ActionKeepsTurn(draw: Draw, v: Vars, key: K.Key)
    requires v.state.focus.ConversationPane? && ResolveInput(v.state, key).Act?
    requires Dispatched(draw, v, ResolveInput(v.state, key).action).state.focus.ConversationPane?
    ensures SelectedTurn(v.snapshot.model, Dispatched(draw, v, ResolveInput(v.state, key).action).state)
         == SelectedTurn(v.snapshot.model, v.state)
  {
    var action := ResolveInput(v.state, key).action;
    var t := Reduce(v.snapshot.model, v.state, action, Some(v.limits));
    DispatchedFocus(draw, v, action);
    ConversationKeepsTurn(v.snapshot.model, v.state, key, Some(v.limits));
    AlikeSelectsAlike(v.snapshot.model, v.state, t);
    PaintKeepsSelection(draw, v.(state := t));
  }

  lemma ArrivalKeepsTurn(draw: Draw, v: Vars, turn: Turn, contexts: map<string, Context>)
    requires v.state.focus.ConversationPane?
    ensures var w := ContextArrived(draw, v, turn, contexts);
            w.snapshot == v.snapshot
              && SelectedTurn(w.snapshot.model, w.state) == SelectedTurn(v.snapshot.model, v.state)
  {
    if !v.finished {
      TellingKeepsFocus(draw, v.(loaded := contexts + v.loaded), ClearStatus);
      ArrivalKeepsSnapshot(draw, v, turn, contexts);
    }
  }

  // ------------------------------------------------- the screen always shows the selection

  /** In every session, at every moment: what is selected in the focused list is on the screen. */
  lemma SelectionStaysOnScreen(draw: Draw, v: Vars)
    requires Invariant(draw, v) && !v.finished && v.state.overlay.NoOverlay?
    ensures v.state.focus.ProjectsPane? && LeftCount(v.snapshot.model, v.state) > 0 ==>
      R.OnScreen(v.screen, R.Row(R.LeftList, LeftIndex(v.state)))
    ensures v.state.focus.TurnsPane? && VisibleTurns(v.snapshot.model, v.state) != [] ==>
      R.OnScreen(v.screen, R.Row(R.TurnList, RowOf(VisibleTurns(v.snapshot.model, v.state), TurnIndex(v.state))))
  {
    var m, s := v.snapshot.model, v.state;
    var counts := draw(v.snapshot, v.loaded, Unscrolled(s), v.width, v.height);
    UnscrolledAlike(m, s);
    assert ViewOf(draw, v) == ViewFrom(m, s, counts);
    SelectionIsDrawn(m, s, counts, v.width, v.height);
  }

  lemma UnscrolledAlike(m: Model, s: State)
    ensures VisibleTurns(m, Unscrolled(s)) == VisibleTurns(m, s) && LeftCount(m, Unscrolled(s)) == LeftCount(m, s)
  {
    assert SearchGroups(m, Unscrolled(s)) == SearchGroups(m, s);
  }

  // ------------------------------------------------- the arrow keys lead everywhere

  function ArrowKey(down: bool): K.Key {
    K.Named(if down then K.Down else K.Up)
  }

  /** A press of an arrow key, as the decoder reports it. */
  function Arrow(down: bool): Event {
    KeyPressed(ArrowKey(down))
  }

  function Presses(down: bool, n: nat): seq<Event> {
    Times(Arrow(down), n)
  }

  /** What one press does. */
  function Press(draw: Draw, down: bool): Vars -> Vars {
    (v: Vars) => Step(draw, v, Arrow(down))
  }

  function Steps(draw: Draw): (Vars, Event) -> Vars {
    (v: Vars, e: Event) => Step(draw, v, e)
  }

  function Repeat<S>(f: S -> S, s: S, n: nat): S
    decreases n
  {
    if n == 0 then s else Repeat(f, f(s), n - 1)
  }

  /** A relation between the beginning and the end of repeating `f`, wherever that can be done. */
  ghost predicate Composes<S(!new)>(f: S -> S, can: (S, nat) -> bool, leads: (S, S, nat) -> bool) {
    && (forall x :: can(x, 0) ==> leads(x, x, 0))
    && (forall x, k: nat :: k > 0 && can(x, k) ==> can(f(x), k - 1))
    && (forall x, y, k: nat :: k > 0 && can(x, k) && leads(f(x), y, k - 1) ==> leads(x, y, k))
  }

  lemma {:induction false} RepeatLeads<S(!new)>(f: S -> S, can: (S, nat) -> bool, leads: (S, S, nat) -> bool, s: S,
                                                n: nat)
    requires Composes(f, can, leads) && can(s, n)
    ensures leads(s, Repeat(f, s, n), n)
    decreases n
  {
    if n > 0 {
      RepeatLeads(f, can, leads, f(s), n - 1);
    }
  }

  function Fold<S, E>(f: (S, E) -> S, s: S, events: seq<E>): S
    decreases events
  {
    if events == [] then s else Fold(f, f(s, events[0]), events[1..])
  }

  function Times<E>(e: E, n: nat): seq<E> {
    if n == 0 then [] else [e] + Times(e, n - 1)
  }

  lemma {:induction false} RunIsFold(draw: Draw, v: Vars, events: seq<Event>)
    ensures Run(draw, v, events) == Fold(Steps(draw), v, events)
    decreases events
  {
    if events != [] {
      RunIsFold(draw, Step(draw, v, events[0]), events[1..]);
    }
  }

  lemma {:induction false} FoldRepeats<S, E>(f: (S, E) -> S, g: S -> S, s: S, e: E, n: nat)
    requires forall x: S :: g(x) == f(x, e)
    ensures Fold(f, s, Times(e, n)) == Repeat(g, s, n)
    decreases n
  {
    if n > 0 {
      assert Times(e, n)[1..] == Times(e, n - 1);
      FoldRepeats(f, g, g(s), e, n - 1);
    }
  }

  lemma PressesRepeat(draw: Draw, v: Vars, down: bool, n: nat)
    ensures Run(draw, v, Presses(down, n)) == Repeat(Press(draw, down), v, n)
  {
    RunIsFold(draw, v, Presses(down, n));
    FoldRepeats(Steps(draw), Press(draw, down), v, Arrow(down), n);
  }

  function Shift(from: int, down: bool, n: nat): int {
    if down then from + n else from - n
  }

  function ArrowAction(down: bool): Action {
    if down then MoveDown else MoveUp
  }

  lemma ArrowMoves(s: State, down: bool)
    ensures ResolveInput(s, ArrowKey(down)) == Act(ArrowAction(down))
  {}

  lemma ReducedArrow(m: Model, s: State, down: bool, limits: Option<R.Limits>)
    ensures Reduce(m, s, ArrowAction(down), limits) == Move(m, s, Shift(0, down, 1), limits)
  {}

  lemma KeyActs(draw: Draw, v: Vars, key: K.Key, action: Action)
    requires !v.finished && ResolveInput(v.state, key) == Act(action)
    ensures Step(draw, v, KeyPressed(key)) == Dispatched(draw, v, action)
  {}

  /** An arrow key reduces a move and paints. */
  lemma ArrowStep(draw: Draw, v: Vars, down: bool)
    requires !v.finished
    ensures Step(draw, v, Arrow(down))
         == Painted(draw, v.(state := Move(v.snapshot.model, v.state, Shift(0, down, 1), Some(v.limits))))
  {
    ArrowMoves(v.state, down);
    KeyActs(draw, v, ArrowKey(down), ArrowAction(down));
    ReducedArrow(v.snapshot.model, v.state, down, Some(v.limits));
  }

  /** A state with the offset that the keys move set. */
  function Scrolled(s: State, offset: nat): State {
    if !s.overlay.NoOverlay? then s.(overlayOffset := offset)
    else if s.focus.ConversationPane? then s.(conversationOffset := offset)
    else s.(detailOffset := offset)
  }

  lemma ScrolledTwice(s: State, a: nat, b: nat)
    ensures Scrolled(Scrolled(s, a), b) == Scrolled(s, b)
  {}

  /** Offsets of the state are offsets of the view. */
  lemma ViewScrolls(draw: Draw, v: Vars)
    requires Scrolling(v.state)
    ensures var view := ViewOf(draw, v);
            && R.ActiveOffset(view) == ScrollOffset(v.state)
            && R.ActiveLimit(view, v.limits) == ScrollBound(v.state, v.limits)
  {}

  lemma ViewOfScrolled(draw: Draw, v: Vars, offset: nat)
    requires Scrolling(v.state)
    ensures ViewOf(draw, v.(state := Scrolled(v.state, offset))) == R.ScrolledTo(ViewOf(draw, v), offset)
  {
    assert Unscrolled(Scrolled(v.state, offset)) == Unscrolled(v.state);
  }

  /** What a session scrolled to an offset differs in from what it was: that offset, and the screen. */
  ghost predicate ScrolledFrom(draw: Draw, v: Vars, w: Vars, offset: nat) {
    OnScreen(draw, w) && w == v.(state := Scrolled(v.state, offset), screen := w.screen)
  }

  lemma PaintedScrolled(draw: Draw, v: Vars, offset: nat)
    requires !v.finished && OnScreen(draw, v) && Scrolling(v.state) && offset <= ScrollBound(v.state, v.limits)
    ensures ScrolledFrom(draw, v, Painted(draw, v.(state := Scrolled(v.state, offset))), offset)
  {
    var scrolled := v.(state := Scrolled(v.state, offset));
    ViewOfScrolled(draw, v, offset);
    R.LimitsIgnoreOffset(ViewOf(draw, v), v.width, v.height, offset);
    PaintShowsState(draw, scrolled);
    assert ClampScroll(scrolled.state, v.limits) == scrolled.state;
  }

  lemma MoveScrolls(m: Model, s: State, down: bool, limits: R.Limits)
    requires Scrolling(s) && ScrollOffset(s) <= ScrollBound(s, limits)
    requires 0 <= Shift(ScrollOffset(s), down, 1) <= ScrollBound(s, limits)
    ensures Move(m, s, Shift(0, down, 1), Some(limits)) == Scrolled(s, Shift(ScrollOffset(s), down, 1))
  {}

  /** Something scrolls, and can be scrolled on by some rows. */
  ghost predicate CanScroll(draw: Draw, v: Vars, down: bool, n: nat) {
    && !v.finished && OnScreen(draw, v) && Scrolling(v.state) && ScrollOffset(v.state) <= ScrollBound(v.state, v.limits)
    && 0 <= Shift(ScrollOffset(v.state), down, n) <= ScrollBound(v.state, v.limits)
  }

  /** One press of an arrow key scrolls by one row. */
  lemma ArrowScrolls(draw: Draw, v: Vars, down: bool)
    requires CanScroll(draw, v, down, 1)
    ensures ScrolledFrom(draw, v, Press(draw, down)(v), Shift(ScrollOffset(v.state), down, 1))
  {
    ArrowStep(draw, v, down);
    MoveScrolls(v.snapshot.model, v.state, down, v.limits);
    PaintedScrolled(draw, v, Shift(ScrollOffset(v.state), down, 1));
  }

  lemma ScrolledOn(draw: Draw, v: Vars, w: Vars, x: Vars, a: nat, b: nat)
    requires ScrolledFrom(draw, v, w, a) && ScrolledFrom(draw, w, x, b)
    ensures ScrolledFrom(draw, v, x, b)
  {
    ScrolledTwice(v.state, a, b);
  }

  lemma ScrolledGoesOn(draw: Draw, v: Vars, w: Vars, down: bool, n: nat)
    requires n > 0 && CanScroll(draw, v, down, n) && ScrolledFrom(draw, v, w, Shift(ScrollOffset(v.state), down, 1))
    ensures CanScroll(draw, w, down, n - 1)
      && Shift(ScrollOffset(w.state), down, n - 1) == Shift(ScrollOffset(v.state), down, n)
    ensures ScrollOffset(w.state) == Shift(ScrollOffset(v.state), down, 1)
  {}

  lemma ScrolledNowhere(draw: Draw, v: Vars)
    requires OnScreen(draw, v) && Scrolling(v.state)
    ensures ScrolledFrom(draw, v, v, ScrollOffset(v.state))
  {
    assert Scrolled(v.state, ScrollOffset(v.state)) == v.state;
  }

  ghost predicate ScrolledBy(draw: Draw, down: bool, v: Vars, w: Vars, n: nat) {
    Shift(ScrollOffset(v.state), down, n) >= 0 && ScrolledFrom(draw, v, w, Shift(ScrollOffset(v.state), down, n))
  }

  lemma ArrowThenScrolled(draw: Draw, v: Vars, w: Vars, down: bool, n: nat)
    requires n > 0 && CanScroll(draw, v, down, n)
    ensures CanScroll(draw, Press(draw, down)(v), down, n - 1)
    ensures ScrolledBy(draw, down, Press(draw, down)(v), w, n - 1) ==> ScrolledBy(draw, down, v, w, n)
  {
    var next := Press(draw, down)(v);
    ArrowScrolls(draw, v, down);
    ScrolledGoesOn(draw, v, next, down, n);
    if ScrolledBy(draw, down, next, w, n - 1) {
      ScrolledOn(draw, v, next, w, ScrollOffset(next.state), Shift(ScrollOffset(v.state), down, n));
    }
  }

  ghost function ScrollingCan(draw: Draw, down: bool): (Vars, nat) -> bool {
    (v: Vars, n: nat) => CanScroll(draw, v, down, n)
  }

  ghost function ScrollingLeads(draw: Draw, down: bool): (Vars, Vars, nat) -> bool {
    (v: Vars, w: Vars, n: nat) => ScrolledBy(draw, down, v, w, n)
  }

  lemma ScrollingStays(draw: Draw, down: bool)
    ensures forall v :: ScrollingCan(draw, down)(v, 0) ==> ScrollingLeads(draw, down)(v, v, 0)
  {
    forall v | ScrollingCan(draw, down)(v, 0) ensures ScrollingLeads(draw, down)(v, v, 0) {
      ScrolledNowhere(draw, v);
    }
  }

  lemma ScrollingGoesOn(draw: Draw, down: bool, f: Vars -> Vars)
    requires forall v, n: nat :: n > 0 && CanScroll(draw, v, down, n) ==> CanScroll(draw, f(v), down, n - 1)
    requires forall v, w, n: nat ::
      n > 0 && CanScroll(draw, v, down, n) && ScrolledBy(draw, down, f(v), w, n - 1) ==> ScrolledBy(draw, down, v, w, n)
    ensures forall v, n: nat :: n > 0 && ScrollingCan(draw, down)(v, n) ==> ScrollingCan(draw, down)(f(v), n - 1)
    ensures forall v, w, n: nat ::
      n > 0 && ScrollingCan(draw, down)(v, n) && ScrollingLeads(draw, down)(f(v), w, n - 1) ==>
        ScrollingLeads(draw, down)(v, w, n)
  {}

  lemma ScrollingComposes(draw: Draw, down: bool)
    ensures Composes(Press(draw, down), ScrollingCan(draw, down), ScrollingLeads(draw, down))
  {
    var f := Press(draw, down);
    forall v, n: nat | n > 0 && CanScroll(draw, v, down, n) ensures CanScroll(draw, f(v), down, n - 1) {
      ArrowThenScrolled(draw, v, v, down, n);
    }
    forall v, w, n: nat | n > 0 && CanScroll(draw, v, down, n) && ScrolledBy(draw, down, f(v), w, n - 1)
      ensures ScrolledBy(draw, down, v, w, n)
    {
      ArrowThenScrolled(draw, v, w, down, n);
    }
    ScrollingStays(draw, down);
    ScrollingGoesOn(draw, down, f);
  }

  /** Several presses scroll by as many rows. */
  lemma PressesScroll(draw: Draw, v: Vars, down: bool, n: nat)
    requires CanScroll(draw, v, down, n)
    ensures ScrolledBy(draw, down, v, Run(draw, v, Presses(down, n)), n)
  {
    ScrollingComposes(draw, down);
    RepeatLeads(Press(draw, down), ScrollingCan(draw, down), ScrollingLeads(draw, down), v, n);
    PressesRepeat(draw, v, down, n);
  }

  lemma ScrolledScreen(draw: Draw, v: Vars, w: Vars, offset: nat)
    requires Scrolling(v.state) && ScrolledFrom(draw, v, w, offset)
    ensures w.screen == R.Frame(R.ScrolledTo(ViewOf(draw, v), offset), v.width, v.height)
  {
    ViewOfScrolled(draw, v, offset);
    assert ViewOf(draw, w) == ViewOf(draw, v.(state := Scrolled(v.state, offset)));
  }

  lemma KeysReachOffset(draw: Draw, v: Vars, offset: nat) returns (down: bool, n: nat)
    requires CanScroll(draw, v, true, 0) && offset <= ScrollBound(v.state, v.limits)
    ensures Run(draw, v, Presses(down, n)).screen
         == R.Frame(R.ScrolledTo(ViewOf(draw, v), offset), v.width, v.height)
  {
    var here := ScrollOffset(v.state);
    down := here <= offset;
    n := if down then offset - here else here - offset;
    PressesScroll(draw, v, down, n);
    ScrolledScreen(draw, v, Run(draw, v, Presses(down, n)), offset);
  }

  /** In every session, at every moment: some presses of one arrow key bring any row of the overlay, the
      conversation or the detail pane on the screen. */
  lemma KeysReachEveryRow(draw: Draw, v: Vars, i: nat)
    requires Invariant(draw, v) && !v.finished && Scrolling(v.state) && i < R.ActiveCount(ViewOf(draw, v))
    ensures exists down: bool, n: nat ::
      R.OnScreen(Run(draw, v, Presses(down, n)).screen, R.Row(R.ActiveRegion(ViewOf(draw, v)), i))
  {
    var view := ViewOf(draw, v);
    ViewScrolls(draw, v);
    R.EveryRowIsReachable(view, v.width, v.height, i);
    var offset: nat :| offset <= R.ActiveLimit(view, v.limits)
                       && R.OnScreen(R.Frame(R.ScrolledTo(view, offset), v.width, v.height),
                                     R.Row(R.ActiveRegion(view), i));
    var down, n := KeysReachOffset(draw, v, offset);
  }

  /** What arrow keys keep in a list. */
  ghost predicate Listing(draw: Draw, v: Vars, length: nat) {
    Invariant(draw, v) && !v.finished && !Scrolling(v.state) && CursorLength(v.snapshot.model, v.state) == length
  }

  lemma PaintedCursor(draw: Draw, v: Vars)
    ensures var p := Painted(draw, v);
            && p.snapshot == v.snapshot && p.finished == v.finished && Scrolling(p.state) == Scrolling(v.state)
            && Cursor(p.state) == Cursor(v.state)
            && CursorLength(v.snapshot.model, p.state) == CursorLength(v.snapshot.model, v.state)
  {
    PaintKeepsSelection(draw, v);
    CursorAlike(v.snapshot.model, v.state, Painted(draw, v).state);
  }

  lemma CursorAlike(m: Model, s: State, t: State)
    requires ListsAlike(s, t) && s.focus == t.focus
    ensures Cursor(s) == Cursor(t) && CursorLength(m, s) == CursorLength(m, t)
  {
    assert SearchGroups(m, s) == SearchGroups(m, t);
  }

  /** One press of an arrow key selects the next member of a list, or stays at the end. */
  lemma ArrowSelects(draw: Draw, v: Vars, down: bool, length: nat)
    requires Listing(draw, v, length) && length > 0
    ensures var w := Press(draw, down)(v);
            Listing(draw, w, length) && Cursor(w.state) == Nearest(Shift(Cursor(v.state), down, 1), length)
  {
    var moved := v.(state := Move(v.snapshot.model, v.state, Shift(0, down, 1), Some(v.limits)));
    StepKeepsInvariant(draw, v, Arrow(down));
    ArrowStep(draw, v, down);
    CursorMoves(v.snapshot.model, v.state, Shift(0, down, 1), Some(v.limits));
    PaintedCursor(draw, moved);
  }

  ghost predicate CanSelect(draw: Draw, v: Vars, length: nat, down: bool, n: nat) {
    && Listing(draw, v, length) && 0 <= Cursor(v.state) < length && 0 <= Shift(Cursor(v.state), down, n) < length
  }

  predicate SelectedBy(down: bool, v: Vars, w: Vars, n: nat) {
    Cursor(w.state) == Shift(Cursor(v.state), down, n)
  }

  lemma ArrowThenSelected(draw: Draw, v: Vars, w: Vars, length: nat, down: bool, n: nat)
    requires n > 0 && CanSelect(draw, v, length, down, n)
    ensures CanSelect(draw, Press(draw, down)(v), length, down, n - 1)
    ensures SelectedBy(down, Press(draw, down)(v), w, n - 1) ==> SelectedBy(down, v, w, n)
  {
    ArrowSelects(draw, v, down, length);
  }

  ghost function SelectingCan(draw: Draw, length: nat, down: bool): (Vars, nat) -> bool {
    (v: Vars, n: nat) => CanSelect(draw, v, length, down, n)
  }

  ghost function SelectingLeads(down: bool): (Vars, Vars, nat) -> bool {
    (v: Vars, w: Vars, n: nat) => SelectedBy(down, v, w, n)
  }

  lemma SelectingGoesOn(draw: Draw, length: nat, down: bool, f: Vars -> Vars)
    requires forall v, n: nat ::
      n > 0 && CanSelect(draw, v, length, down, n) ==> CanSelect(draw, f(v), length, down, n - 1)
    requires forall v, w, n: nat ::
      n > 0 && CanSelect(draw, v, length, down, n) && SelectedBy(down, f(v), w, n - 1) ==> SelectedBy(down, v, w, n)
    ensures Composes(f, SelectingCan(draw, length, down), SelectingLeads(down))
  {}

  lemma SelectingComposes(draw: Draw, length: nat, down: bool)
    ensures Composes(Press(draw, down), SelectingCan(draw, length, down), SelectingLeads(down))
  {
    var f := Press(draw, down);
    forall v, n: nat | n > 0 && CanSelect(draw, v, length, down, n) ensures CanSelect(draw, f(v), length, down, n - 1) {
      ArrowThenSelected(draw, v, v, length, down, n);
    }
    forall v, w, n: nat | n > 0 && CanSelect(draw, v, length, down, n) && SelectedBy(down, f(v), w, n - 1)
      ensures SelectedBy(down, v, w, n)
    {
      ArrowThenSelected(draw, v, w, length, down, n);
    }
    SelectingGoesOn(draw, length, down, f);
  }

  lemma PressesSelect(draw: Draw, v: Vars, length: nat, down: bool, n: nat)
    requires CanSelect(draw, v, length, down, n)
    ensures SelectedBy(down, v, Run(draw, v, Presses(down, n)), n)
  {
    SelectingComposes(draw, length, down);
    RepeatLeads(Press(draw, down), SelectingCan(draw, length, down), SelectingLeads(down), v, n);
    PressesRepeat(draw, v, down, n);
  }

  lemma CursorInBounds(m: Model, s: State)
    requires InBounds(m, s) && !Scrolling(s) && CursorLength(m, s) > 0
    ensures 0 <= Cursor(s) < CursorLength(m, s)
  {}

  /** And in every list, some presses of one arrow key select any member. */
  lemma KeysSelectEveryMember(draw: Draw, v: Vars, i: nat)
    requires Invariant(draw, v) && !v.finished && !Scrolling(v.state)
    requires i < CursorLength(v.snapshot.model, v.state)
    ensures exists down: bool, n: nat :: Cursor(Run(draw, v, Presses(down, n)).state) == i
  {
    CursorInBounds(v.snapshot.model, v.state);
    var down := Cursor(v.state) <= i;
    var n: nat := if down then i - Cursor(v.state) else Cursor(v.state) - i;
    PressesSelect(draw, v, CursorLength(v.snapshot.model, v.state), down, n);
  }

  // ------------------------------------------------- the object behind it

  /** The session between the end of a scan and what is made of it. */
  ghost predicate Resolving(draw: Draw, v: Vars) {
    Settled(draw, v) && v.busy && v.inFlight == []
  }

  lemma ArrivalFacts(draw: Draw, v: Vars, turn: Turn, contexts: map<string, Context>)
    requires Resolving(draw, v)
    ensures var w := ContextArrived(draw, v, turn, contexts);
            && Invariant(draw, w) && w.snapshot == v.snapshot && Extends(v.loaded, w.loaded) && !w.busy
              && w.inFlight == []
            && (!v.state.focus.ConversationPane? ==>
                  (w.state.focus.ConversationPane? <==> !v.finished && StillWanted(v, turn)))
  {
    ContextArrivedKeeps(draw, v, turn, contexts);
    ArrivalKeepsSnapshot(draw, v, turn, contexts);
    if !v.state.focus.ConversationPane? {
      ArrivalOpensIff(draw, v, turn, contexts);
    }
    ArrivalResolves(draw, v, turn, contexts);
  }

  lemma ArrivalResolves(draw: Draw, v: Vars, turn: Turn, contexts: map<string, Context>)
    ensures !ContextArrived(draw, v, turn, contexts).busy
    ensures ContextArrived(draw, v, turn, contexts).inFlight == v.inFlight
  {}

  class Interactive {
    const draw: Draw
    var snapshot: Snapshot
    var loaded: map<string, Context>
    var state: State
    var limits: R.Limits
    var screen: seq<R.Cell>
    var width: nat
    var height: nat
    var busy: bool
    var finished: bool
    var inFlight: seq<Task>

    ghost function Values(): Vars
      reads this
    {
      Vars(snapshot, loaded, state, limits, screen, width, height, busy, finished, inFlight)
    }

    /** The session starts in order, with a frame of what the command line names on the screen. */
    constructor (draw: Draw, snapshot: Snapshot, entry: Entry, width: nat, height: nat)
      ensures this.draw == draw && this.snapshot == snapshot && Invariant(draw, Values())
      ensures Values()
           == Started(draw, snapshot, Entered(snapshot.model, Create(snapshot.model), entry), width, height)
    {
      this.draw := draw;
      this.snapshot, this.loaded, this.width, this.height := snapshot, map[], width, height;
      state := Entered(snapshot.model, Create(snapshot.model), entry);
      limits, screen := R.Limits(0, 0, 0), [];
      busy, finished, inFlight := false, false, [];
      new;
      Paint();
      SessionsAreOrderly(draw, snapshot, entry, width, height, []);
    }

    /** Afterwards the screen shows the state, scrolled within the bounds of the frame; nothing else changes. */
    method Paint()
      modifies this`limits, this`state, this`screen
      ensures Values() == Painted(draw, old(Values()))
      ensures !finished ==> OnScreen(draw, Values())
      ensures ListsAlike(old(state), state) && state.focus == old(state).focus
    {
      PaintKeepsSelection(draw, Values());
      if finished {
        return;
      }
      PaintShowsState(draw, Values());
      var u := Unscrolled(state);
      var view := BuildView(snapshot.model, u, draw(snapshot, loaded, u, width, height));
      var frame, bounds := R.RenderFrame(ScrolledAs(view, state), width, height);
      limits := bounds;
      state := ClampScroll(state, limits);
      screen := frame;
    }

    method Dispatch(action: Action)
      modifies this`limits, this`state, this`screen
      ensures Values() == Dispatched(draw, old(Values()), action)
      ensures !finished ==> OnScreen(draw, Values())
    {
      state := Reduce(snapshot.model, state, action, Some(limits));
      Paint();
    }

    /** Says something: the screen stays as it is. */
    method Tell(kind: Kind, text: string)
      requires !finished ==> OnScreen(draw, Values())
      modifies this`limits, this`state, this`screen
      ensures Values() == Dispatched(draw, old(Values()), Told(kind, text))
      ensures Values() == old(Values()).(state := old(state).(status := Some(Status(kind, text))))
    {
      TellingKeepsState(draw, Values(), Told(kind, text));
      Dispatch(Told(kind, text));
    }

    method Finish()
      requires Invariant(draw, Values())
      modifies this`finished
      ensures finished && Invariant(draw, Values())
    {
      finished := true;
    }

    /** `refresh` up to where its scan is started: with no scan in flight it becomes the only one; with one in
        flight nothing happens at all. */
    method Refresh()
      requires Invariant(draw, Values())
      modifies this
      ensures Values() == RefreshStarted(draw, old(Values())) && Invariant(draw, Values())
      ensures old(inFlight) != [] ==> Values() == old(Values())
      ensures old(inFlight) == [] ==> inFlight == [Refreshing] && busy && snapshot == old(snapshot)
                                      && state == old(state).(status := Some(Status(Busy, REFRESHING)))
    {
      RefreshStartedKeeps(draw, Values());
      if busy {
        return;
      }
      busy := true;
      Tell(Busy, REFRESHING);
      inFlight := inFlight + [Refreshing];
    }

    /** `refresh` from where its scan has succeeded: a fresh browser over the new snapshot, open to the next scan,
        with the first of each list selected and none of the old contexts. */
    method RefreshResolved(rescan: Snapshot)
      requires Resolving(draw, Values())
      modifies this
      ensures Values() == RefreshSucceeded(draw, old(Values()), rescan) && Invariant(draw, Values())
      ensures snapshot == rescan && loaded == map[] && !busy && inFlight == []
      ensures ListsAlike(state, Create(rescan.model)) && state.focus.ProjectsPane?
    {
      RefreshSucceededKeeps(draw, Values(), rescan);
      CreatedInBounds(rescan.model);
      snapshot, loaded := rescan, map[];
      state := Create(snapshot.model);
      DispatchedListsAlike(draw, Values(), Told(Info, REFRESHED));
      Dispatch(Told(Info, REFRESHED));
      busy := false;
    }

    /** `refresh` from where its scan has failed: all is as before, but for the message and the flag. */
    method RefreshRejected(message: string)
      requires Resolving(draw, Values())
      modifies this
      ensures Values() == RefreshFailed(draw, old(Values()), message) && Invariant(draw, Values())
      ensures Values() == old(Values()).(
        state := old(state).(status := Some(Status(Failure, REFRESH_FAILED + message))), busy := false)
    {
      FailureKeeps(draw, Values(), REFRESH_FAILED + message);
      Tell(Failure, REFRESH_FAILED + message);
      busy := false;
    }

    method LoadContext()
      requires Invariant(draw, Values())
      modifies this
      ensures Values() == ContextRequested(draw, old(Values())) && Invariant(draw, Values())
      ensures snapshot == old(snapshot) && loaded == old(loaded)
    {
      ContextRequestedKeeps(draw, Values());
      var entry := SelectedTurn(snapshot.model, state);
      if entry.None? {
        return;
      }
      if entry.value.id in loaded || entry.value.id in snapshot.contexts {
        Dispatch(Drill);
        return;
      }
      if busy {
        return;
      }
      busy := true;
      Dispatch(Told(Busy, LOADING));
      if !snapshot.traceable(entry.value) {
        Dispatch(Told(Failure, UNAVAILABLE));
        busy := false;
        return;
      }
      inFlight := inFlight + [LoadingContext(entry.value, snapshot)];
    }

    /** `loadContext` from where its scan has succeeded: of contexts that arrive twice the first stays, and the
        conversation opens only for a view that still wants it. */
    method ContextResolved(turn: Turn, contexts: map<string, Context>)
      requires Resolving(draw, Values())
      modifies this
      ensures Values() == ContextArrived(draw, old(Values()), turn, contexts) && Invariant(draw, Values())
      ensures snapshot == old(snapshot) && Extends(old(loaded), loaded) && !busy && inFlight == []
      ensures old(state).focus.ConversationPane?
              || (state.focus.ConversationPane? <==> !finished && StillWanted(old(Values()), turn))
    {
      ArrivalFacts(draw, Values(), turn, contexts);
      if !finished {
        StoreContexts(turn, contexts);
      }
      busy := false;
    }

    method StoreContexts(turn: Turn, contexts: map<string, Context>)
      requires !finished
      modifies this`loaded, this`limits, this`state, this`screen
      ensures Values().(busy := false) == ContextArrived(draw, old(Values()), turn, contexts)
    {
      loaded := contexts + loaded;
      Dispatch(ClearStatus);
      var selected := SelectedTurn(snapshot.model, state);
      if state.focus.DetailPane? && state.overlay.NoOverlay? && selected.Some? && selected.value.id == turn.id {
        Dispatch(Drill);
      }
    }

    /** `loadContext` from where its scan has failed. */
    method ContextRejected(message: string)
      requires Resolving(draw, Values())
      modifies this
      ensures Values() == ContextFailed(draw, old(Values()), message) && Invariant(draw, Values())
      ensures Values() == old(Values()).(
        state := old(state).(status := Some(Status(Failure, LOAD_FAILED + message))), busy := false)
    {
      FailureKeeps(draw, Values(), LOAD_FAILED + message);
      Tell(Failure, LOAD_FAILED + message);
      busy := false;
    }

    method HandleKey(key: K.Key)
      requires Invariant(draw, Values())
      modifies this
      ensures Values() == KeyHandled(draw, old(Values()), key) && Invariant(draw, Values())
      ensures snapshot == old(snapshot) && loaded == old(loaded)
    {
      KeyKeeps(draw, Values(), key);
      if finished {
        return;
      }
      match ResolveInput(state, key)
      case Exit => Finish();
      case Act(action) => Dispatch(action);
      case RequestRefresh => Refresh();
      case RequestContext => LoadContext();
      case Nothing =>
    }

    /** A resize keeps what is selected and what is in flight, and the screen shows it at the new size. */
    method Resize(width: nat, height: nat)
      requires Invariant(draw, Values())
      modifies this
      ensures Values() == Painted(draw, old(Values()).(width := width, height := height)) && Invariant(draw, Values())
      ensures ListsAlike(old(state), state) && state.focus == old(state).focus && state.overlay == old(state).overlay
      ensures snapshot == old(snapshot) && loaded == old(loaded) && busy == old(busy) && inFlight == old(inFlight)
    {
      PaintSettles(draw, Values().(width := width, height := height));
      PaintKeepsSelection(draw, Values().(width := width, height := height));
      this.width, this.height := width, height;
      Paint();
    }

    /** The event loop, for one event: a step of the run, which keeps the invariant. */
    method Handle(e: Event)
      requires Invariant(draw, Values())
      modifies this
      ensures Values() == Step(draw, old(Values()), e) && Invariant(draw, Values())
    {
      match e
      case KeyPressed(key) => HandleKey(key);
      case Resized(width, height) => Resize(width, height);
      case Ended => Finish();
      case ScanSucceeded(at, result) =>
        if at < |inFlight| {
          var task := Resolve(at);
          match task
          case Refreshing => RefreshResolved(result);
          case LoadingContext(turn, _) => ContextResolved(turn, result.contexts);
        }
      case ScanFailed(at, message) =>
        if at < |inFlight| {
          var task := Resolve(at);
          match task
          case Refreshing => RefreshRejected(message);
          case LoadingContext(_, _) => ContextRejected(message);
        }
    }

    /** A scan in flight has come to its end: it was the only one, and on this snapshot. */
    method Resolve(at: nat) returns (task: Task)
      requires Invariant(draw, Values()) && at < |inFlight|
      modifies this`inFlight
      ensures task == old(inFlight)[at] && old(inFlight) == [task] && Resolving(draw, Values())
      ensures Values() == old(Values()).(inFlight := Without(old(inFlight), at))
      ensures task.LoadingContext? ==> task.on == snapshot
    {
      task := inFlight[at];
      SettledApart(draw, Values(), busy, []);
      inFlight := Without(inFlight, at);
    }
  }
}
