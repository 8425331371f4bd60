/** The session controller of the shell: which application is open, the
    content generated for it, the interaction history sent with each request,
    the undo and redo stacks of history snapshots, the path of interaction ids
    inside the open application, and the settings.

    Each handler is one atomic transition. `AppState` and the transition
    functions below say what each handler does to the whole state; the class
    `App` performs the same steps field by field and is proved to agree. The
    content of a request is what iterating `streamAppContent` produces: a
    sequence of chunks, possibly cut short by a thrown error. */
module AppShell {
  import opened Js
  import opened Types
  import Constants
  import GeminiService

  type Stream = GeminiService.RemoteStream

  /** Ids of interactions the shell handles itself instead of sending them. */
  const CloseButtonId := "app_close_button"
  const UndoId := "system_undo"
  const RedoId := "system_redo"

  predicate IsSystemId(id: string) { id == CloseButtonId || id == UndoId || id == RedoId }

  const NoInteractionError := "No interaction data to process."
  const StreamError := "Failed to stream content from the API."
  const ErrorContent := "<div class=\"p-4 text-red-600 bg-red-100 rounded-md\">Error loading content.</div>"

  /** The profile used when none was saved. */
  const DefaultProfile := UserProfile("GeminiUser", "\U{1F916}")

  datatype AppState = AppState(
    activeApp: Option<AppDefinition>,
    llmContent: string,
    isLoading: bool,
    error: Option<string>,
    interactionHistory: seq<InteractionData>,
    userProfile: UserProfile,
    historyUndoStack: seq<seq<InteractionData>>,
    historyRedoStack: seq<seq<InteractionData>>,
    isParametersOpen: bool,
    currentMaxHistoryLength: int,
    isStatefulnessEnabled: bool,
    appContentCache: map<string, string>,
    currentAppPath: seq<string>)

  /** The state at start-up; `saved` is the profile found in local storage, if any. */
  function Initial(saved: Option<UserProfile>): AppState {
    AppState(None, "", false, None, [], if saved.Some? then saved.value else DefaultProfile, [], [], false,
      Constants.InitialMaxHistoryLength, false, map[], [])
  }

  // ---------------------------------------------------------------- history

  /** The history after a new interaction: the interaction first, then the
      old history cut by `slice(0, max - 1)`. */
  function NextHistory(data: InteractionData, history: seq<InteractionData>, max: int): seq<InteractionData> {
    [data] + Slice(history, 0, max - 1)
  }

  /** The new interaction comes first and the rest is the start of the old
      history, newest first. For a bound of at least 1 the rest keeps at most
      `max - 1` entries, so a history within the bound stays within it. */
  lemma NextHistoryShape(data: InteractionData, history: seq<InteractionData>, max: int)
    ensures var r := NextHistory(data, history, max);
      && r[0] == data
      && r[1..] <= history
      && (max >= 1 ==> |r| == 1 + Min(max - 1, |history|) && |r| <= max)
  {
    var r := NextHistory(data, history, max);
    SliceFromStart(history, max - 1);
    assert r[1..] == Slice(history, 0, max - 1);
  }

  /** With a bound of 0, `slice(0, -1)` drops only the oldest entry, so the
      history never shrinks below one entry and never drops to the bound. */
  lemma ZeroBoundHistory(data: InteractionData, history: seq<InteractionData>)
    ensures |NextHistory(data, history, 0)| == Max(1, |history|)
    ensures history != [] ==> NextHistory(data, history, 0) == [data] + history[..|history| - 1]
  {
    SliceFromStart(history, -1);
  }

  /** The path after a new interaction: extended inside an open application,
      restarted otherwise. */
  function NewPath(activeApp: Option<AppDefinition>, path: seq<string>, id: string): seq<string> {
    if activeApp.Some? then path + [id] else [id]
  }

  /** The cache key of a path: its ids joined by `__`. */
  function CacheKey(path: seq<string>): string {
    Join(path, "__")
  }

  /** Extending a path extends its key by the separator and the new id;
      a restarted path's key is the id itself. */
  lemma CacheKeyOfNewPath(activeApp: Option<AppDefinition>, path: seq<string>, id: string)
    ensures activeApp.Some? && path != [] ==> CacheKey(NewPath(activeApp, path, id)) == CacheKey(path) + "__" + id
    ensures activeApp.None? || path == [] ==> CacheKey(NewPath(activeApp, path, id)) == id
  {
    JoinSnoc(path, "__", id);
    assert [] + [id] == [id];
  }

  // ---------------------------------------------------------------- transitions

  /** What the content a request streams leaves in the state: loading ends,
      the chunks are appended to the content, and a thrown error replaces the
      content by the error markup and sets the error. An empty history only
      sets the error. */
  function Requested(s: AppState, history: seq<InteractionData>, stream: Stream): AppState {
    s.(isLoading := s.isLoading && history == [],
       error := RequestError(history, stream),
       llmContent := RequestContent(s.llmContent, history, stream))
  }

  /** The error a request leaves. */
  function RequestError(history: seq<InteractionData>, stream: Stream): Option<string> {
    if history == [] then Some(NoInteractionError)
    else if stream.failure.None? then None
    else Some(StreamError)
  }

  /** The content a request leaves, from the content `prev` before it. */
  function RequestContent(prev: string, history: seq<InteractionData>, stream: Stream): string {
    if history == [] then prev
    else if stream.failure.None? then prev + Concat(GeminiService.Delivered(stream))
    else ErrorContent
  }

  /** The content the cache holds for a key, when it holds a non-empty one. */
  predicate CacheHit(cache: map<string, string>, key: string) {
    key in cache && cache[key] != ""
  }

  /** `handleInteraction`: the close, undo and redo buttons are handled
      directly; every other interaction is recorded and answered. */
  function Interacted(s: AppState, data: InteractionData, stream: Stream): AppState {
    if data.id == CloseButtonId then ClosedAppView(s)
    else if data.id == UndoId then Undone(s, stream)
    else if data.id == RedoId then Redone(s, stream)
    else Recorded(s, data, stream)
  }

  /** An ordinary interaction: the old history is pushed on the undo stack,
      the redo stack is cleared, the interaction is added to the history and
      the path, and the content comes from the cache or from a request. */
  function Recorded(s: AppState, data: InteractionData, stream: Stream): AppState {
    var s1 := Pushed(s, data);
    var key := CacheKey(s1.currentAppPath);
    if s.isStatefulnessEnabled && CacheHit(s.appContentCache, key) then
      s1.(llmContent := s.appContentCache[key], isLoading := false)
    else Requested(s1, s1.interactionHistory, stream)
  }

  /** The bookkeeping of an ordinary interaction, before its content arrives. */
  function Pushed(s: AppState, data: InteractionData): AppState {
    s.(historyUndoStack := s.historyUndoStack + [s.interactionHistory], historyRedoStack := [],
      interactionHistory := NextHistory(data, s.interactionHistory, s.currentMaxHistoryLength),
      currentAppPath := NewPath(s.activeApp, s.currentAppPath, data.id), llmContent := "", error := None)
  }

  /** `handleUndo`. */
  function Undone(s: AppState, stream: Stream): AppState {
    if s.historyUndoStack == [] then s
    else
      var previousHistory := s.historyUndoStack[|s.historyUndoStack| - 1];
      var s1 := s.(historyRedoStack := s.historyRedoStack + [s.interactionHistory],
        historyUndoStack := s.historyUndoStack[..|s.historyUndoStack| - 1],
        interactionHistory := previousHistory, llmContent := "");
      Requested(s1, previousHistory, stream)
  }

  /** `handleRedo`. */
  function Redone(s: AppState, stream: Stream): AppState {
    if s.historyRedoStack == [] then s
    else
      var nextHistory := s.historyRedoStack[|s.historyRedoStack| - 1];
      var s1 := s.(historyUndoStack := s.historyUndoStack + [s.interactionHistory],
        historyRedoStack := s.historyRedoStack[..|s.historyRedoStack| - 1],
        interactionHistory := nextHistory, llmContent := "");
      Requested(s1, nextHistory, stream)
  }

  /** The interaction that opening an application records. */
  function OpeningInteraction(app: AppDefinition): InteractionData {
    InteractionData(app.id, "app_open", None, "icon", app.name, Some(app.id))
  }

  /** `handleAppOpen`. */
  function Opened(s: AppState, app: AppDefinition, stream: Stream): AppState {
    var newHistory := [OpeningInteraction(app)];
    var s1 := s.(historyUndoStack := [], historyRedoStack := [], interactionHistory := newHistory,
      currentAppPath := [app.id], isParametersOpen := false, activeApp := Some(app), llmContent := "", error := None);
    Requested(s1, newHistory, stream)
  }

  /** `handleCloseAppView`. */
  function ClosedAppView(s: AppState): AppState {
    s.(activeApp := None, llmContent := "", error := None, interactionHistory := [], currentAppPath := [],
      historyUndoStack := [], historyRedoStack := [])
  }

  /** `handleToggleParametersPanel`. */
  function Toggled(s: AppState): AppState {
    if !s.isParametersOpen then s.(activeApp := None, llmContent := "", error := None, isParametersOpen := true)
    else s.(activeApp := None, llmContent := "", error := None, interactionHistory := [], currentAppPath := [],
      isParametersOpen := false)
  }

  /** `handleUpdateHistoryLength`. */
  function LengthUpdated(s: AppState, newLength: int): AppState {
    s.(currentMaxHistoryLength := newLength, interactionHistory := Slice(s.interactionHistory, 0, newLength))
  }

  /** `handleSetStatefulness`. */
  function StatefulnessSet(s: AppState, enabled: bool): AppState {
    s.(isStatefulnessEnabled := enabled, appContentCache := if !enabled then map[] else s.appContentCache)
  }

  /** `setUserProfile`, handed to the settings panel. */
  function ProfileSet(s: AppState, profile: UserProfile): AppState {
    s.(userProfile := profile)
  }

  /** `handleMasterClose`: the window's close button. */
  function MasterClosed(s: AppState): AppState {
    if s.isParametersOpen then Toggled(s)
    else if s.activeApp.Some? then ClosedAppView(s)
    else s
  }

  /** The window title. */
  function WindowTitle(s: AppState): string {
    if s.isParametersOpen then "Settings"
    else if s.activeApp.Some? then s.activeApp.value.name
    else "Gemini Computer"
  }

  // ---------------------------------------------------------------- properties

  /** A request never touches the history, the stacks, the path, the open
      application, the settings, the profile or the cache. Without a history
      it only sets the error; with one it ends loading, and it appends the
      delivered text or shows the error markup. */
  lemma RequestEffects(s: AppState, history: seq<InteractionData>, stream: Stream)
    ensures var r := Requested(s, history, stream);
      && r.interactionHistory == s.interactionHistory && r.currentAppPath == s.currentAppPath
      && r.historyUndoStack == s.historyUndoStack && r.historyRedoStack == s.historyRedoStack
      && r.activeApp == s.activeApp && r.appContentCache == s.appContentCache
      && r.isParametersOpen == s.isParametersOpen && r.currentMaxHistoryLength == s.currentMaxHistoryLength
      && r.userProfile == s.userProfile && r.isStatefulnessEnabled == s.isStatefulnessEnabled
      && (history == [] ==> r.error == Some(NoInteractionError) && r.llmContent == s.llmContent)
      && (history == [] ==> r.isLoading == s.isLoading)
      && (history != [] ==> !r.isLoading)
      && (history != [] && stream.failure.None? ==>
            r.error.None? && r.llmContent == s.llmContent + Concat(GeminiService.Delivered(stream)))
      && (history != [] && stream.failure.Some? ==> r.error == Some(StreamError) && r.llmContent == ErrorContent)
  {
  }

  /** Streaming what the prompt service yields for a non-empty history shows
      exactly the concatenation of those chunks, starting from empty content,
      so every chunk yielded appears in the content shown. */
  lemma ServiceContentShown(s: AppState, history: seq<InteractionData>, remote: Stream)
    requires history != [] && s.llmContent == ""
    ensures var ys := GeminiService.Yields(history, remote);
      var r := Requested(s, history, GeminiService.RemoteStream(ys, None));
      && r.llmContent == Concat(ys) && r.error.None?
      && forall k :: 0 <= k < |ys| ==> Contains(r.llmContent, ys[k])
  {
    var ys := GeminiService.Yields(history, remote);
    AppendEmpty("", Concat(ys));
    forall k | 0 <= k < |ys|
      ensures Contains(Concat(ys), ys[k])
    {
      ConcatContains(ys, k);
    }
  }

  /** Undo and redo never change the path or the open application. */
  lemma UndoRedoKeepPath(s: AppState, stream: Stream)
    ensures Undone(s, stream).currentAppPath == s.currentAppPath && Undone(s, stream).activeApp == s.activeApp
    ensures Redone(s, stream).currentAppPath == s.currentAppPath && Redone(s, stream).activeApp == s.activeApp
  {
  }

  /** Redo right after undo restores the history and both stacks. */
  lemma UndoThenRedo(s: AppState, stream1: Stream, stream2: Stream)
    requires s.historyUndoStack != []
    ensures var r := Redone(Undone(s, stream1), stream2);
      r.interactionHistory == s.interactionHistory
      && r.historyUndoStack == s.historyUndoStack && r.historyRedoStack == s.historyRedoStack
  {
    var u := s.historyUndoStack;
    assert u[..|u| - 1] + [u[|u| - 1]] == u;
    var t := s.historyRedoStack + [s.interactionHistory];
    assert t[..|t| - 1] == s.historyRedoStack;
  }

  /** Undo right after redo restores the history and both stacks. */
  lemma RedoThenUndo(s: AppState, stream1: Stream, stream2: Stream)
    requires s.historyRedoStack != []
    ensures var r := Undone(Redone(s, stream1), stream2);
      r.interactionHistory == s.interactionHistory
      && r.historyUndoStack == s.historyUndoStack && r.historyRedoStack == s.historyRedoStack
  {
    var v := s.historyRedoStack;
    assert v[..|v| - 1] + [v[|v| - 1]] == v;
    var t := s.historyUndoStack + [s.interactionHistory];
    assert t[..|t| - 1] == s.historyUndoStack;
  }

  /** Undo right after an interaction restores the history and the undo
      stack; the redo stack then holds just the history the interaction
      made, and the path stays the one the interaction made. */
  lemma InteractionThenUndo(s: AppState, data: InteractionData, stream1: Stream, stream2: Stream)
    requires !IsSystemId(data.id)
    ensures var r := Undone(Interacted(s, data, stream1), stream2);
      && r.interactionHistory == s.interactionHistory
      && r.historyUndoStack == s.historyUndoStack
      && r.historyRedoStack == [NextHistory(data, s.interactionHistory, s.currentMaxHistoryLength)]
      && r.currentAppPath == NewPath(s.activeApp, s.currentAppPath, data.id)
  {
    var t := s.historyUndoStack + [s.interactionHistory];
    assert t[..|t| - 1] == s.historyUndoStack;
  }

  /** Interactions in order, each answered by `stream`. */
  function InteractAll(s: AppState, ds: seq<InteractionData>, stream: Stream): AppState
    decreases |ds|
  {
    if ds == [] then s else InteractAll(Interacted(s, ds[0], stream), ds[1..], stream)
  }

  /** `n` undos in a row. */
  function UndoAll(s: AppState, n: nat, stream: Stream): AppState
    decreases n
  {
    if n == 0 then s else UndoAll(Undone(s, stream), n - 1, stream)
  }

  /** Interactions push one snapshot each, the first being the history before
      them, and leave nothing to redo. */
  lemma {:induction false} InteractAllPushes(s: AppState, ds: seq<InteractionData>, stream: Stream)
    requires forall d :: d in ds ==> !IsSystemId(d.id)
    ensures var t := InteractAll(s, ds, stream);
      && |t.historyUndoStack| == |s.historyUndoStack| + |ds|
      && t.historyUndoStack[..|s.historyUndoStack|] == s.historyUndoStack
      && (ds != [] ==> t.historyUndoStack[|s.historyUndoStack|] == s.interactionHistory)
      && (ds != [] ==> t.historyRedoStack == [])
    decreases |ds|
  {
    if ds != [] {
      var s1 := Interacted(s, ds[0], stream);
      assert forall d :: d in ds[1..] ==> d in ds;
      InteractAllPushes(s1, ds[1..], stream);
      var t := InteractAll(s1, ds[1..], stream);
      assert s1.historyUndoStack == s.historyUndoStack + [s.interactionHistory];
      PrefixOfPrefix(t.historyUndoStack, s1.historyUndoStack, s.historyUndoStack);
    }
  }

  /** A prefix of a prefix is a prefix, position by position. */
  lemma PrefixOfPrefix<T>(t: seq<T>, u: seq<T>, v: seq<T>)
    requires |u| <= |t| && t[..|u|] == u && v <= u
    ensures t[..|v|] == v && (|v| < |u| ==> t[|v|] == u[|v|])
  {
    assert forall i :: 0 <= i < |u| ==> t[i] == u[i];
  }

  /** `n` undos pop the top `n` snapshots, and the last one popped becomes the
      history; each pushes one snapshot on the redo stack, and none moves the path. */
  lemma {:induction false} UndoAllPops(s: AppState, n: nat, stream: Stream)
    requires n <= |s.historyUndoStack|
    ensures var r := UndoAll(s, n, stream); var u := s.historyUndoStack;
      && r.historyUndoStack == u[..|u| - n]
      && (n > 0 ==> r.interactionHistory == u[|u| - n])
      && |r.historyRedoStack| == |s.historyRedoStack| + n
      && r.currentAppPath == s.currentAppPath
    decreases n
  {
    if n > 0 {
      var u := s.historyUndoStack;
      var s1 := Undone(s, stream);
      UndoAllPops(s1, n - 1, stream);
      assert u[..|u| - 1][..|u| - n] == u[..|u| - n];
      assert n > 1 ==> u[..|u| - 1][|u| - n] == u[|u| - n];
    }
  }

  /** `N` interactions followed by `N` undos restore the history and the undo
      stack. The redo stack then holds `N` snapshots, and the path stays the
      one the interactions made: undo never touches it. */
  lemma InteractionsThenUndos(s: AppState, ds: seq<InteractionData>, stream: Stream)
    requires forall d :: d in ds ==> !IsSystemId(d.id)
    ensures var r := UndoAll(InteractAll(s, ds, stream), |ds|, stream);
      && r.historyUndoStack == s.historyUndoStack
      && (ds != [] ==> r.interactionHistory == s.interactionHistory)
      && (ds != [] ==> |r.historyRedoStack| == |ds|)
      && r.currentAppPath == InteractAll(s, ds, stream).currentAppPath
  {
    var t := InteractAll(s, ds, stream);
    InteractAllPushes(s, ds, stream);
    UndoAllPops(t, |ds|, stream);
  }

  /** Opening an application starts a fresh session inside it. */
  lemma OpenStartsSession(s: AppState, app: AppDefinition, stream: Stream)
    ensures var r := Opened(s, app, stream);
      && r.activeApp == Some(app) && !r.isParametersOpen
      && r.interactionHistory == [OpeningInteraction(app)] && r.currentAppPath == [app.id]
      && r.historyUndoStack == [] && r.historyRedoStack == []
      && r.interactionHistory[0].appContext == Some(app.id) && r.interactionHistory[0].elementText == app.name
  {
  }

  /** The settings toggle never clears the undo or redo stacks; it always
      hides the application, and closing the panel clears the history and the path. */
  lemma ToggleKeepsStacks(s: AppState)
    ensures var r := Toggled(s);
      && r.historyUndoStack == s.historyUndoStack && r.historyRedoStack == s.historyRedoStack
      && r.activeApp.None? && r.isParametersOpen == !s.isParametersOpen
      && (s.isParametersOpen ==> r.interactionHistory == [] && r.currentAppPath == [])
      && (!s.isParametersOpen ==> r.interactionHistory == s.interactionHistory)
  {
  }

  /** The window's close button always leads back to the desktop. */
  lemma MasterCloseShowsDesktop(s: AppState)
    ensures MasterClosed(s).activeApp.None? && !MasterClosed(s).isParametersOpen
    ensures WindowTitle(MasterClosed(s)) == "Gemini Computer"
  {
  }

  /** A new bound cuts the history to its first `n` entries. */
  lemma LengthUpdateCuts(s: AppState, n: nat)
    ensures var r := LengthUpdated(s, n);
      r.interactionHistory == s.interactionHistory[..Min(n, |s.interactionHistory|)]
      && |r.interactionHistory| <= n && r.currentMaxHistoryLength == n
  {
    SliceFromStart(s.interactionHistory, n);
  }

  /** Turning statefulness off empties the cache; turning it on keeps it. */
  lemma StatefulnessCache(s: AppState, enabled: bool)
    ensures !enabled ==> StatefulnessSet(s, enabled).appContentCache == map[]
    ensures enabled ==> StatefulnessSet(s, enabled).appContentCache == s.appContentCache
  {
  }

  // ---------------------------------------------------------------- sessions

  /** Everything that can happen to the shell. */
  datatype Event =
    | Interact(data: InteractionData, stream: Stream)
    | Undo(undoStream: Stream)
    | Redo(redoStream: Stream)
    | OpenApp(app: AppDefinition, openStream: Stream)
    | CloseAppView
    | ToggleParameters
    | UpdateHistoryLength(newLength: int)
    | SetStatefulness(enabled: bool)
    | UpdateUserProfile(profile: UserProfile)
    | MasterClose

  function Step(s: AppState, e: Event): AppState {
    match e
    case Interact(data, stream) => Interacted(s, data, stream)
    case Undo(stream) => Undone(s, stream)
    case Redo(stream) => Redone(s, stream)
    case OpenApp(app, stream) => Opened(s, app, stream)
    case CloseAppView => ClosedAppView(s)
    case ToggleParameters => Toggled(s)
    case UpdateHistoryLength(n) => LengthUpdated(s, n)
    case SetStatefulness(enabled) => StatefulnessSet(s, enabled)
    case UpdateUserProfile(profile) => ProfileSet(s, profile)
    case MasterClose => MasterClosed(s)
  }

  function Run(s: AppState, es: seq<Event>): AppState
    decreases |es|
  {
    if es == [] then s else Run(Step(s, es[0]), es[1..])
  }

  /** No step ever adds to the content cache. */
  lemma StepNeverCaches(s: AppState, e: Event)
    ensures Step(s, e).appContentCache.Keys <= s.appContentCache.Keys
  {
    match e {
      case Interact(data, stream) =>
        if !IsSystemId(data.id) {
          RequestEffects(Pushed(s, data), Pushed(s, data).interactionHistory, stream);
        }
      case _ =>
    }
  }

  /** The cache starts empty and nothing ever fills it, so a cached page is
      never served: every interaction of a session sends a request. */
  lemma {:induction false} CacheStaysEmpty(saved: Option<UserProfile>, es: seq<Event>)
    ensures Run(Initial(saved), es).appContentCache == map[]
  {
    RunKeepsEmptyCache(Initial(saved), es);
  }

  lemma {:induction false} RunKeepsEmptyCache(s: AppState, es: seq<Event>)
    requires s.appContentCache == map[]
    ensures Run(s, es).appContentCache == map[]
    decreases |es|
  {
    if es != [] {
      StepNeverCaches(s, es[0]);
      RunKeepsEmptyCache(Step(s, es[0]), es[1..]);
    }
  }

  // ---------------------------------------------------------------- the component

  /** The shell component with its state hooks as fields. */
  class App {
    var activeApp: Option<AppDefinition>
    var llmContent: string
    var isLoading: bool
    var error: Option<string>
    var interactionHistory: seq<InteractionData>
    var userProfile: UserProfile
    var historyUndoStack: seq<seq<InteractionData>>
    var historyRedoStack: seq<seq<InteractionData>>
    var isParametersOpen: bool
    var currentMaxHistoryLength: int
    var isStatefulnessEnabled: bool
    var appContentCache: map<string, string>
    var currentAppPath: seq<string>

    ghost function State(): AppState
      reads this
    {
      AppState(activeApp, llmContent, isLoading, error, interactionHistory, userProfile, historyUndoStack,
        historyRedoStack, isParametersOpen, currentMaxHistoryLength, isStatefulnessEnabled, appContentCache,
        currentAppPath)
    }

    /** The fields hold the state `s`. */
    ghost predicate Holds(s: AppState)
      reads this
    {
      && activeApp == s.activeApp && llmContent == s.llmContent && isLoading == s.isLoading && error == s.error
      && interactionHistory == s.interactionHistory && userProfile == s.userProfile
      && historyUndoStack == s.historyUndoStack && historyRedoStack == s.historyRedoStack
      && isParametersOpen == s.isParametersOpen && currentMaxHistoryLength == s.currentMaxHistoryLength
      && isStatefulnessEnabled == s.isStatefulnessEnabled && appContentCache == s.appContentCache
      && currentAppPath == s.currentAppPath
    }

    constructor(saved: Option<UserProfile>)
      ensures Holds(Initial(saved))
    {
      activeApp := None;
      llmContent := "";
      isLoading := false;
      error := None;
      interactionHistory := [];
      userProfile := if saved.Some? then saved.value else DefaultProfile;
      historyUndoStack := [];
      historyRedoStack := [];
      isParametersOpen := false;
      currentMaxHistoryLength := Constants.InitialMaxHistoryLength;
      isStatefulnessEnabled := false;
      appContentCache := map[];
      currentAppPath := [];
    }

    // The setters of the state hooks: each replaces one field and keeps the others.

    method SetActiveApp(v: Option<AppDefinition>)
      modifies this
      ensures Holds(old(State()).(activeApp := v))
    {
      activeApp := v;
    }

    method SetLlmContent(v: string)
      modifies this
      ensures Holds(old(State()).(llmContent := v))
    {
      llmContent := v;
    }

    method SetIsLoading(v: bool)
      modifies this
      ensures Holds(old(State()).(isLoading := v))
    {
      isLoading := v;
    }

    method SetError(v: Option<string>)
      modifies this
      ensures Holds(old(State()).(error := v))
    {
      error := v;
    }

    method SetInteractionHistory(v: seq<InteractionData>)
      modifies this
      ensures Holds(old(State()).(interactionHistory := v))
    {
      interactionHistory := v;
    }

    /** `setUserProfile`, also handed to the settings panel. */
    method SetUserProfile(profile: UserProfile)
      modifies this
      ensures Holds(ProfileSet(old(State()), profile))
    {
      userProfile := profile;
    }

    method SetHistoryUndoStack(v: seq<seq<InteractionData>>)
      modifies this
      ensures Holds(old(State()).(historyUndoStack := v))
    {
      historyUndoStack := v;
    }

    method SetHistoryRedoStack(v: seq<seq<InteractionData>>)
      modifies this
      ensures Holds(old(State()).(historyRedoStack := v))
    {
      historyRedoStack := v;
    }

    method SetIsParametersOpen(v: bool)
      modifies this
      ensures Holds(old(State()).(isParametersOpen := v))
    {
      isParametersOpen := v;
    }

    method SetCurrentMaxHistoryLength(v: int)
      modifies this
      ensures Holds(old(State()).(currentMaxHistoryLength := v))
    {
      currentMaxHistoryLength := v;
    }

    method SetIsStatefulnessEnabled(v: bool)
      modifies this
      ensures Holds(old(State()).(isStatefulnessEnabled := v))
    {
      isStatefulnessEnabled := v;
    }

    method SetAppContentCache(v: map<string, string>)
      modifies this
      ensures Holds(old(State()).(appContentCache := v))
    {
      appContentCache := v;
    }

    method SetCurrentAppPath(v: seq<string>)
      modifies this
      ensures Holds(old(State()).(currentAppPath := v))
    {
      currentAppPath := v;
    }

    /** `internalHandleLlmRequest`: streams the content for `historyForLlm`,
        appending each chunk as it arrives. */
    method InternalHandleLlmRequest(historyForLlm: seq<InteractionData>, stream: Stream)
      modifies this
      ensures Holds(Requested(old(State()), historyForLlm, stream))
    {
      if |historyForLlm| == 0 {
        SetError(Some(NoInteractionError));
        return;
      }
      SetIsLoading(true);
      SetError(None);
      var accumulatedContent := "";
      var delivered := GeminiService.Delivered(stream);
      var i := 0;
      while i < |delivered|
        invariant 0 <= i <= |delivered|
        invariant accumulatedContent == Concat(delivered[..i])
        invariant Holds(old(State()).(isLoading := true, error := None,
          llmContent := old(llmContent) + accumulatedContent))
      {
        var chunk := delivered[i];
        accumulatedContent := accumulatedContent + chunk;
        SetLlmContent(llmContent + chunk);
        ConcatStep(delivered, i);
        Assoc3(old(llmContent), Concat(delivered[..i]), chunk);
        i := i + 1;
      }
      assert delivered[..i] == delivered;
      if stream.failure.Some? {
        SetError(Some(StreamError));
        accumulatedContent := ErrorContent;
        SetLlmContent(accumulatedContent);
      }
      SetIsLoading(false);
    }

    /** `handleInteraction`. */
    method HandleInteraction(interactionData: InteractionData, stream: Stream)
      modifies this
      ensures Holds(Interacted(old(State()), interactionData, stream))
    {
      if interactionData.id == CloseButtonId {
        HandleCloseAppView();
        return;
      }
      if interactionData.id == UndoId {
        HandleUndo(stream);
        return;
      }
      if interactionData.id == RedoId {
        HandleRedo(stream);
        return;
      }
      RecordInteraction(interactionData, stream);
    }

    /** The part of `handleInteraction` after the button checks. */
    method RecordInteraction(interactionData: InteractionData, stream: Stream)
      modifies this
      ensures Holds(Recorded(old(State()), interactionData, stream))
    {
      var cached := isStatefulnessEnabled;
      var cache := appContentCache;
      var newPath := PushInteraction(interactionData);
      var cacheKey := Join(newPath, "__");
      if cached && cacheKey in cache && cache[cacheKey] != "" {
        SetLlmContent(cache[cacheKey]);
        SetIsLoading(false);
      } else {
        InternalHandleLlmRequest(interactionHistory, stream);
      }
    }

    /** The undo snapshot, the new history and the new path of an interaction. */
    method PushInteraction(interactionData: InteractionData) returns (newPath: seq<string>)
      modifies this
      ensures Holds(Pushed(old(State()), interactionData))
      ensures newPath == currentAppPath
    {
      SetHistoryUndoStack(historyUndoStack + [interactionHistory]);
      SetHistoryRedoStack([]);
      var newHistory := [interactionData] + Slice(interactionHistory, 0, currentMaxHistoryLength - 1);
      SetInteractionHistory(newHistory);
      newPath := if activeApp.Some? then currentAppPath + [interactionData.id] else [interactionData.id];
      SetCurrentAppPath(newPath);
      SetLlmContent("");
      SetError(None);
    }

    /** `handleUndo`. */
    method HandleUndo(stream: Stream)
      modifies this
      ensures Holds(Undone(old(State()), stream))
    {
      if |historyUndoStack| == 0 {
        return;
      }
      var previousHistory := historyUndoStack[|historyUndoStack| - 1];
      SetHistoryRedoStack(historyRedoStack + [interactionHistory]);
      SetHistoryUndoStack(historyUndoStack[..|historyUndoStack| - 1]);
      SetInteractionHistory(previousHistory);
      SetLlmContent("");
      InternalHandleLlmRequest(previousHistory, stream);
    }

    /** `handleRedo`. */
    method HandleRedo(stream: Stream)
      modifies this
      ensures Holds(Redone(old(State()), stream))
    {
      if |historyRedoStack| == 0 {
        return;
      }
      var nextHistory := historyRedoStack[|historyRedoStack| - 1];
      SetHistoryUndoStack(historyUndoStack + [interactionHistory]);
      SetHistoryRedoStack(historyRedoStack[..|historyRedoStack| - 1]);
      SetInteractionHistory(nextHistory);
      SetLlmContent("");
      InternalHandleLlmRequest(nextHistory, stream);
    }

    /** `handleAppOpen`. */
    method HandleAppOpen(app: AppDefinition, stream: Stream)
      modifies this
      ensures Holds(Opened(old(State()), app, stream))
    {
      var initialInteraction := InteractionData(app.id, "app_open", None, "icon", app.name, Some(app.id));
      SetHistoryUndoStack([]);
      SetHistoryRedoStack([]);
      var newHistory := [initialInteraction];
      SetInteractionHistory(newHistory);
      SetCurrentAppPath([app.id]);
      if isParametersOpen {
        SetIsParametersOpen(false);
      }
      SetActiveApp(Some(app));
      SetLlmContent("");
      SetError(None);
      InternalHandleLlmRequest(newHistory, stream);
    }

    /** `handleCloseAppView`. */
    method HandleCloseAppView()
      modifies this
      ensures Holds(ClosedAppView(old(State())))
    {
      SetActiveApp(None);
      SetLlmContent("");
      SetError(None);
      SetInteractionHistory([]);
      SetCurrentAppPath([]);
      SetHistoryUndoStack([]);
      SetHistoryRedoStack([]);
    }

    /** `handleToggleParametersPanel`. */
    method HandleToggleParametersPanel()
      modifies this
      ensures Holds(Toggled(old(State())))
    {
      var prevIsOpen := isParametersOpen;
      SetActiveApp(None);
      SetLlmContent("");
      SetError(None);
      if prevIsOpen {
        SetInteractionHistory([]);
        SetCurrentAppPath([]);
      }
      SetIsParametersOpen(!prevIsOpen);
    }

    /** `handleUpdateHistoryLength`. */
    method HandleUpdateHistoryLength(newLength: int)
      modifies this
      ensures Holds(LengthUpdated(old(State()), newLength))
    {
      SetCurrentMaxHistoryLength(newLength);
      SetInteractionHistory(Slice(interactionHistory, 0, newLength));
    }

    /** `handleSetStatefulness`. */
    method HandleSetStatefulness(enabled: bool)
      modifies this
      ensures Holds(StatefulnessSet(old(State()), enabled))
    {
      SetIsStatefulnessEnabled(enabled);
      if !enabled {
        SetAppContentCache(map[]);
      }
    }

    /** `handleMasterClose`. */
    method HandleMasterClose()
      modifies this
      ensures Holds(MasterClosed(old(State())))
    {
      if isParametersOpen {
        HandleToggleParametersPanel();
      } else if activeApp.Some? {
        HandleCloseAppView();
      }
    }
  }

  /** Appending the next element to a prefix appends its text. */
  lemma ConcatStep(ss: seq<string>, i: nat)
    requires i < |ss|
    ensures Concat(ss[..i + 1]) == Concat(ss[..i]) + ss[i]
  {
    DropLastOfAppend(ss[..i], [ss[i]]);
    TakeSnoc(ss, i);
  }
}
