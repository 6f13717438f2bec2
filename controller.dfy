/**
 * The playback controller of cursor-flow.js: one mutable state record
 * advanced by event handlers.  Timers, fetches and clicks are method calls
 * made by the environment, which passes in their outcomes (the loaded
 * recording, the page the user is on, the document a timer sees).
 */
module FlowController {
  import opened Wrappers
  import opened Dom
  import opened Recordings
  import opened Locator
  import opened SessionStore
  import opened Overlay

  /** The cursor node: whether it is displayed, and where it was last put. */
  datatype Marker = Marker(shown: bool, at: Option<Point>)

  /** The highlight node: whether it is displayed, its box, and whether the pulse animation is set. */
  datatype Glow = Glow(shown: bool, box: Option<Box>, pulsing: bool)

  /**
   * The controller's whole state: the `state` record (`listening` holds the
   * handles of elements carrying the click listener), whether the highlight
   * loop function is installed, the start button's label, the body and head
   * node ids, and session storage.
   */
  datatype Flow = Flow(
    isPlaying: bool, currentStep: nat, sessionId: Option<string>, recording: Option<Recording>,
    targetElement: Option<Node>, listening: set<nat>,
    cursor: Option<Marker>, highlight: Option<Glow>, highlightLoop: bool, button: Option<string>,
    body: seq<string>, head: seq<string>, storage: map<string, Stored>, storageAvailable: bool)

  /** The id-less node the page-mismatch alert appends. */
  const AlertNodeId: string := ""

  // ---- persistence ----

  /** The three fields `saveState` keeps. */
  function Essentials(f: Flow): Saved { Saved(f.isPlaying, f.currentStep, f.sessionId) }

  /** `saveState` */
  function Persisted(f: Flow): (r: Flow)
    ensures r.storageAvailable ==> Restored(r.storage, true) == Some(Essentials(f))
    ensures !r.storageAvailable ==> r == f
    ensures r.(storage := f.storage) == f
  {
    f.(storage := AfterSave(f.storage, f.storageAvailable, Essentials(f)))
  }

  /** `restoreState`: the three fields come back when a saved state parses; otherwise nothing changes. */
  function WithRestored(f: Flow): (r: Flow)
    ensures Restored(f.storage, f.storageAvailable).None? ==> r == f
    ensures Restored(f.storage, f.storageAvailable).Some? ==>
      Essentials(r) == Restored(f.storage, f.storageAvailable).value
      && r.(isPlaying := f.isPlaying, currentStep := f.currentStep, sessionId := f.sessionId) == f
  {
    match Restored(f.storage, f.storageAvailable)
    case Some(s) => f.(isPlaying := s.isPlaying, currentStep := s.currentStep, sessionId := s.sessionId)
    case None => f
  }

  /** Storage holds exactly what memory holds (or cannot be used at all). */
  predicate InSync(f: Flow) {
    f.storageAvailable ==> Restored(f.storage, true) == Some(Essentials(f))
  }

  /** Restoring right after saving changes nothing. */
  lemma RestoreAfterPersist(f: Flow)
    ensures InSync(Persisted(f))
    ensures WithRestored(Persisted(f)) == Persisted(f)
  {
  }

  // ---- visual elements ----

  /** `createCursor`: a fresh hidden cursor replaces any old one. */
  function WithNewCursor(f: Flow): Flow {
    f.(body := Replace(f.body, CursorId), cursor := Some(Marker(false, None)))
  }

  /** `createHighlight`: a fresh hidden highlight replaces any old one; the pulse style is added once. */
  function WithNewHighlight(f: Flow): Flow {
    f.(body := Replace(f.body, HighlightId), head := AddOnce(f.head, StylesId), highlight := Some(Glow(false, None, false)))
  }

  /** `createVisualElements`: create whichever of cursor and highlight is missing. */
  function VisualsCreated(f: Flow): (r: Flow)
    ensures r.cursor.Some? && r.highlight.Some?
    ensures f.cursor.Some? && f.highlight.Some? ==> r == f
  {
    var f1 := if f.cursor.None? then WithNewCursor(f) else f;
    if f1.highlight.None? then WithNewHighlight(f1) else f1
  }

  /** `createStartButton`: a single button, labelled after the playing flag. */
  function WithButton(f: Flow): Flow {
    f.(body := Replace(f.body, StartButtonId), button := Some(if f.isPlaying then "Stop Guide" else "Start Guide"))
  }

  /** Creating the visuals and the button from a body holding at most one of each leaves exactly one of each. */
  lemma VisualsAreSingletons(f: Flow)
    requires Count(f.body, CursorId) <= 1 && Count(f.body, HighlightId) <= 1
    requires f.cursor.None? && f.highlight.None?
    ensures Count(VisualsCreated(f).body, CursorId) == 1 && Count(VisualsCreated(f).body, HighlightId) == 1
    ensures Count(VisualsCreated(f).head, StylesId) == Count(f.head, StylesId) ||
            (Count(f.head, StylesId) == 0 && Count(VisualsCreated(f).head, StylesId) == 1)
  {
    ReplaceKeepsOne(f.body, CursorId);
    var b := Replace(f.body, CursorId);
    ReplaceKeepsOne(b, HighlightId);
    if StylesId !in f.head {
      assert multiset(f.head + [StylesId]) == multiset(f.head) + multiset{StylesId};
    }
  }

  // ---- stop, start, click ----

  /** `stopPlayback` */
  function Stopped(f: Flow): (r: Flow)
    ensures !r.isPlaying && r.targetElement.None? && !r.highlightLoop
    ensures r.button.Some? <==> f.button.Some?
    ensures r.button.Some? ==> r.button.value == "Start Guide"
    ensures r.cursor.Some? ==> !r.cursor.value.shown
    ensures r.highlight.Some? ==> !r.highlight.value.shown
    ensures f.targetElement.Some? ==> f.targetElement.value.handle !in r.listening
    ensures InSync(r)
    ensures r.currentStep == f.currentStep && r.sessionId == f.sessionId && r.recording == f.recording
  {
    Persisted(Halted(f))
  }

  /** The cursor, hidden. */
  function Hidden(m: Option<Marker>): Option<Marker> {
    if m.Some? then Some(m.value.(shown := false)) else None
  }

  /** The highlight, hidden. */
  function Dimmed(g: Option<Glow>): Option<Glow> {
    if g.Some? then Some(g.value.(shown := false)) else None
  }

  /** `stopPlayback` before its save: hide the visuals, drop the listener and the target, relabel the button. */
  function Halted(f: Flow): Flow {
    f.(isPlaying := false,
       highlightLoop := false,
       cursor := Hidden(f.cursor),
       highlight := Dimmed(f.highlight),
       listening := if f.targetElement.Some? then f.listening - {f.targetElement.value.handle} else f.listening,
       targetElement := None,
       button := if f.button.Some? then Some("Start Guide") else None)
  }

  /** Stopping twice is stopping once. */
  lemma StopIdempotent(f: Flow)
    ensures Stopped(Stopped(f)) == Stopped(f)
  {
    var once := Stopped(f);
    assert once.storageAvailable ==> once.storage[StateKey := Json(Essentials(once))] == once.storage;
  }

  /** Stopping from any state, any number of times, ends stopped and in sync. */
  lemma {:induction false} StopRepeated(f: Flow, n: nat)
    requires n >= 1
    ensures StopTimes(f, n) == Stopped(f)
    decreases n
  {
    if n > 1 {
      StopRepeated(f, n - 1);
      StopIdempotent(f);
    }
  }

  function StopTimes(f: Flow, n: nat): Flow
    decreases n
  {
    if n == 0 then f else Stopped(StopTimes(f, n - 1))
  }

  /** `startPlayback` up to the fetch: nothing while playing, else the visuals are created. */
  function StartRequested(f: Flow): (r: Flow)
    ensures f.isPlaying ==> r == f
    ensures r.isPlaying == f.isPlaying && r.storage == f.storage && r.currentStep == f.currentStep
  {
    if f.isPlaying then f else VisualsCreated(f)
  }

  /** The outcome of `loadRecording`. */
  datatype LoadResult = LoadFailed | Loaded(recording: Recording)

  /** `startPlayback`'s continuation: playing and saved once the recording is in; nothing on failure. */
  function PlaybackStarted(f: Flow, load: LoadResult): (r: Flow)
    ensures load.LoadFailed? ==> r == f
    ensures load.Loaded? ==> r.isPlaying && r.recording == Some(load.recording) && InSync(r)
    ensures r.currentStep == f.currentStep
  {
    match load
    case LoadFailed => f
    case Loaded(rec) => Persisted(f.(recording := Some(rec), isPlaying := true))
  }

  /** Starting while playing does nothing; starting while stopped plays only once the load succeeds. */
  lemma StartPlaysOnlyAfterLoad(f: Flow)
    ensures f.isPlaying ==> StartRequested(f) == f
    ensures !f.isPlaying ==> !StartRequested(f).isPlaying && !PlaybackStarted(StartRequested(f), LoadFailed).isPlaying
    ensures !f.isPlaying ==> forall rec :: PlaybackStarted(StartRequested(f), Loaded(rec)).isPlaying
  {
  }

  /** The start button's click handler. */
  function ButtonClicked(f: Flow): Flow {
    if f.isPlaying then Stopped(f).(button := Some("Start Guide"))
    else StartRequested(f).(button := Some("Stop Guide"))
  }

  /** The button says "Stop Guide" as soon as it is clicked, so a failed load leaves it saying so while nothing plays. */
  lemma FailedLoadKeepsStopLabel(f: Flow)
    requires !f.isPlaying
    ensures PlaybackStarted(ButtonClicked(f), LoadFailed).button == Some("Stop Guide")
    ensures !PlaybackStarted(ButtonClicked(f), LoadFailed).isPlaying
  {
  }

  /** `handleTargetClick` */
  function Clicked(f: Flow): (r: Flow)
    ensures r.currentStep == f.currentStep + 1
    ensures InSync(r)
    ensures r.isPlaying == f.isPlaying && r.targetElement == f.targetElement && r.recording == f.recording
    ensures f.targetElement.Some? ==> f.targetElement.value.handle !in r.listening
  {
    Persisted(f.(
      listening := if f.targetElement.Some? then f.listening - {f.targetElement.value.handle} else f.listening,
      currentStep := f.currentStep + 1))
  }

  function ClickTimes(f: Flow, n: nat): Flow
    decreases n
  {
    if n == 0 then f else Clicked(ClickTimes(f, n - 1))
  }

  /** `n` clicks advance the step by exactly `n`, and the last one is saved. */
  lemma {:induction false} ClicksAdvance(f: Flow, n: nat)
    ensures ClickTimes(f, n).currentStep == f.currentStep + n
    ensures n > 0 ==> InSync(ClickTimes(f, n))
    ensures ClickTimes(f, n).isPlaying == f.isPlaying
    decreases n
  {
    if n > 0 { ClicksAdvance(f, n - 1); }
  }

  // ---- fetchSessionIndex and init ----

  /** The outcome of fetching the session index: a failed request, a non-OK status, or the `sessions` list (ids). */
  datatype IndexResponse = NetworkError | HttpError(status: int) | IndexBody(sessions: Option<seq<string>>)

  /** The session `fetchSessionIndex` picks: the first listed; `None` when the promise rejects. */
  function IndexSession(resp: IndexResponse): (r: Option<string>)
    ensures r.Some? <==> resp.IndexBody? && resp.sessions.Some? && |resp.sessions.value| > 0
    ensures r.Some? ==> r.value == resp.sessions.value[0]
  {
    if resp.IndexBody? && resp.sessions.Some? && |resp.sessions.value| > 0 then Some(resp.sessions.value[0]) else None
  }

  /** `fetchSessionIndex`'s effect: the first session is remembered and saved; on error nothing changes. */
  function AfterIndex(f: Flow, resp: IndexResponse): (r: Flow)
    ensures IndexSession(resp).None? ==> r == f
    ensures IndexSession(resp).Some? ==> r.sessionId == IndexSession(resp) && InSync(r)
  {
    match IndexSession(resp)
    case Some(id) => Persisted(f.(sessionId := Some(id)))
    case None => f
  }

  /**
   * `fetchSessionIndex().then(createStartButton)`: the button is created only
   * after a session was found; a rejected fetch leaves everything as it was.
   */
  function IndexLoaded(f: Flow, resp: IndexResponse): (r: Flow)
    ensures IndexSession(resp).None? ==> r == f
    ensures IndexSession(resp).Some? ==>
      && r.sessionId == IndexSession(resp) && InSync(r)
      && r.button == Some(if f.isPlaying then "Stop Guide" else "Start Guide")
      && r.isPlaying == f.isPlaying && r.currentStep == f.currentStep
  {
    if IndexSession(resp).Some? then WithButton(AfterIndex(f, resp)) else f
  }

  /** A truthy session id. */
  predicate HasSession(f: Flow) { f.sessionId.Some? && f.sessionId.value != "" }

  /** What `init` leaves pending. */
  datatype InitNext = AwaitIndex | Idle | AwaitResume

  /** `init`'s synchronous part: restore, then either fetch the index or show the button (and resume when playing). */
  function InitState(f: Flow): Flow {
    var g := WithRestored(f);
    if HasSession(g) then WithButton(g) else g
  }

  function InitOutcome(f: Flow): (r: InitNext)
    ensures r == AwaitIndex <==> !HasSession(WithRestored(f))
    ensures r == AwaitResume <==> HasSession(WithRestored(f)) && WithRestored(f).isPlaying
  {
    var g := WithRestored(f);
    if !HasSession(g) then AwaitIndex else if g.isPlaying then AwaitResume else Idle
  }

  /** With a saved playing session, `init` resumes it without fetching the index. */
  lemma InitResumesSavedSession(f: Flow, s: Saved)
    requires f.storageAvailable && StateKey in f.storage && f.storage[StateKey] == Json(s)
    requires s.isPlaying && s.sessionId.Some? && s.sessionId.value != ""
    ensures InitOutcome(f) == AwaitResume
    ensures InitState(f).currentStep == s.currentStep && InitState(f).button == Some("Stop Guide")
  {
  }

  /**
   * On a visit without a saved session, the button appears exactly when the
   * index yields a session: never after a network error, an HTTP error or an
   * empty list.
   */
  lemma FirstVisitButtonIff(f: Flow, resp: IndexResponse)
    requires !HasSession(WithRestored(f)) && f.button.None?
    ensures IndexLoaded(InitState(f), resp).button.Some? <==> IndexSession(resp).Some?
  {
  }

  /** `init`'s resume timer: with the recording loaded, the visuals are created before the step is played. */
  function Resumed(f: Flow, load: LoadResult): Flow {
    match load
    case LoadFailed => f
    case Loaded(rec) => VisualsCreated(f.(recording := Some(rec)))
  }

  // ---- playNextStep ----

  /** What `playNextStep` does next: nothing, stop at the end, alert about the page, or wait for the DOM. */
  datatype StepOutcome = Ignored | Completed | WrongPage(expected: string) | AwaitingDom(interaction: Interaction)

  /** The recorded path a step demands, when it is non-empty. */
  function ExpectedPath(it: Interaction): string {
    if it.pageInfo.Some? then it.pageInfo.value.path else ""
  }

  function StepOutcomeOf(f: Flow, currentPath: string): (r: StepOutcome)
    ensures r == Ignored <==> !f.isPlaying || f.recording.None?
    ensures r == Completed <==> f.isPlaying && f.recording.Some? && f.currentStep >= |f.recording.value.interactions|
    ensures r.WrongPage? ==> r.expected != "" && r.expected != currentPath
    ensures r.AwaitingDom? ==> f.currentStep < |f.recording.value.interactions|
                               && r.interaction == f.recording.value.interactions[f.currentStep]
    ensures f.isPlaying && f.recording.Some? && f.currentStep < |f.recording.value.interactions| ==>
              var it := f.recording.value.interactions[f.currentStep];
              if ExpectedPath(it) != "" && ExpectedPath(it) != currentPath
              then r == WrongPage(ExpectedPath(it))
              else r == AwaitingDom(it)
  {
    if !f.isPlaying || f.recording.None? then Ignored
    else if f.currentStep >= |f.recording.value.interactions| then Completed
    else
      var it := f.recording.value.interactions[f.currentStep];
      var expected := ExpectedPath(it);
      if expected != "" && currentPath != expected then WrongPage(expected) else AwaitingDom(it)
  }

  /** `playNextStep`'s synchronous effect. */
  function AfterStep(f: Flow, currentPath: string): Flow {
    match StepOutcomeOf(f, currentPath)
    case Ignored => f
    case Completed => Stopped(f)
    case WrongPage(_) => f.(body := f.body + [AlertNodeId])
    case AwaitingDom(_) => f
  }

  /** Without playing and a recording, `playNextStep` changes nothing. */
  lemma StepNeedsPlayback(f: Flow, currentPath: string)
    requires !f.isPlaying || f.recording.None?
    ensures AfterStep(f, currentPath) == f
  {
  }

  /** Past the last step, playback stops: not playing, no target, state saved. */
  lemma StepPastEndStops(f: Flow, currentPath: string)
    requires f.isPlaying && f.recording.Some? && f.currentStep >= |f.recording.value.interactions|
    ensures !AfterStep(f, currentPath).isPlaying && AfterStep(f, currentPath).targetElement.None?
    ensures InSync(AfterStep(f, currentPath))
  {
  }

  /** On the wrong page only an alert is added: step, playing flag and storage stay as they were. */
  lemma WrongPageKeepsProgress(f: Flow, currentPath: string)
    requires StepOutcomeOf(f, currentPath).WrongPage?
    ensures AfterStep(f, currentPath) == f.(body := f.body + [AlertNodeId])
    ensures AfterStep(f, currentPath).currentStep == f.currentStep && AfterStep(f, currentPath).isPlaying
  {
  }

  /** A step on another page, given while playing inside the recording, leads to the alert. */
  lemma MismatchIsDetected(f: Flow, currentPath: string)
    requires f.isPlaying && f.recording.Some? && f.currentStep < |f.recording.value.interactions|
    requires ExpectedPath(f.recording.value.interactions[f.currentStep]) != ""
    requires ExpectedPath(f.recording.value.interactions[f.currentStep]) != currentPath
    ensures StepOutcomeOf(f, currentPath) == WrongPage(ExpectedPath(f.recording.value.interactions[f.currentStep]))
  {
  }

  // ---- finding the element ----

  /** `continueWithElement`: centre the cursor, highlight the element, listen for its click. */
  function Continued(f: Flow, n: Node): (r: Flow)
    ensures n.handle in r.listening
    ensures f.cursor.Some? ==> r.cursor == Some(Marker(true, Some(CentrePoint(n.rect))))
    ensures f.highlight.Some? ==> r.targetElement == Some(n) && r.highlightLoop
                                  && r.highlight == Some(Glow(true, Some(HighlightBox(n.rect)), true))
    ensures f.highlight.None? ==> r.targetElement == f.targetElement
    ensures r.currentStep == f.currentStep && r.isPlaying == f.isPlaying && r.storage == f.storage
  {
    var f2 := Highlighted(CursorMoved(f, n), n);
    f2.(listening := f2.listening + {n.handle})
  }

  /** `moveCursorToElement`: an existing cursor becomes visible at the element's centre. */
  function CursorMoved(f: Flow, n: Node): Flow {
    if f.cursor.Some? then f.(cursor := Some(Marker(true, Some(CentrePoint(n.rect))))) else f
  }

  /** `highlightElement`: an existing highlight box frames the element and starts following it. */
  function Highlighted(f: Flow, n: Node): Flow {
    if f.highlight.Some?
    then f.(highlightLoop := true, targetElement := Some(n),
            highlight := Some(Glow(true, Some(HighlightBox(n.rect)), true)))
    else f
  }

  /** The 1-second timer of `playNextStep`: continue with the element when the cascade finds it. */
  function AfterFirstAttempt(f: Flow, it: Interaction, page: Page): Flow {
    match Locate(Playback, it.element, page)
    case Some(n) => Continued(f, n)
    case None => f
  }

  /** The step is skipped: advanced and saved (`playNextStep` is then rescheduled). */
  function Skipped(f: Flow): (r: Flow)
    ensures r.currentStep == f.currentStep + 1 && InSync(r)
    ensures r.isPlaying == f.isPlaying && r.targetElement == f.targetElement
  {
    Persisted(f.(currentStep := f.currentStep + 1))
  }

  /** The 2-second retry: continue when found, else skip the step. */
  function AfterSecondAttempt(f: Flow, it: Interaction, page: Page): Flow {
    match Locate(Playback, it.element, page)
    case Some(n) => Continued(f, n)
    case None => Skipped(f)
  }

  /** Not found twice: the step advances by exactly one and is saved. */
  lemma MissTwiceSkips(f: Flow, it: Interaction, page: Page)
    requires Locate(Playback, it.element, page).None?
    ensures AfterFirstAttempt(f, it, page) == f
    ensures AfterSecondAttempt(f, it, page).currentStep == f.currentStep + 1
    ensures InSync(AfterSecondAttempt(f, it, page))
  {
  }

  /** Found: the step does not advance until the element is clicked. */
  lemma FoundWaitsForClick(f: Flow, it: Interaction, page: Page)
    requires Locate(Playback, it.element, page).Some?
    ensures AfterSecondAttempt(f, it, page).currentStep == f.currentStep
    ensures Locate(Playback, it.element, page).value.handle in AfterSecondAttempt(f, it, page).listening
  {
  }

  /** The timers are not cancelled by a stop: a retry that misses after stopping still advances and saves. */
  lemma RetryOutlivesStop(f: Flow, it: Interaction, page: Page)
    requires Locate(Playback, it.element, page).None?
    ensures AfterSecondAttempt(Stopped(f), it, page).currentStep == f.currentStep + 1
    ensures !AfterSecondAttempt(Stopped(f), it, page).isPlaying
  {
  }

  // ---- the controller object ----

  class CursorFlow {
    var isPlaying: bool
    var currentStep: nat
    var sessionId: Option<string>
    var recording: Option<Recording>
    var targetElement: Option<Node>
    var listening: set<nat>
    var cursor: Option<Marker>
    var highlight: Option<Glow>
    var highlightLoop: bool
    var button: Option<string>
    var body: seq<string>
    var head: seq<string>
    var storage: map<string, Stored>
    var storageAvailable: bool

    ghost function View(): Flow
      reads this
    {
      Flow(isPlaying, currentStep, sessionId, recording, targetElement, listening,
           cursor, highlight, highlightLoop, button, body, head, storage, storageAvailable)
    }

    /** The initial `state` record, on a page with the given body, head and storage. */
    constructor (initialBody: seq<string>, initialHead: seq<string>, entries: map<string, Stored>, available: bool)
      ensures View() == Flow(false, 0, None, None, None, {}, None, None, false, None,
                             initialBody, initialHead, entries, available)
    {
      isPlaying, currentStep, sessionId, recording := false, 0, None, None;
      targetElement, listening := None, {};
      cursor, highlight, highlightLoop, button := None, None, false, None;
      body, head, storage, storageAvailable := initialBody, initialHead, entries, available;
    }

    /** `saveState` */
    method SaveState()
      modifies this
      ensures View() == Persisted(old(View()))
    {
      if storageAvailable {
        storage := storage[StateKey := Json(Saved(isPlaying, currentStep, sessionId))];
      }
    }

    /** `restoreState` */
    method RestoreState()
      modifies this
      ensures View() == WithRestored(old(View()))
    {
      if storageAvailable && StateKey in storage && storage[StateKey].Json? {
        var s := storage[StateKey].state;
        isPlaying, currentStep, sessionId := s.isPlaying, s.currentStep, s.sessionId;
      }
    }

    /** `createStartButton` */
    method CreateStartButton()
      modifies this
      ensures View() == WithButton(old(View()))
    {
      body := RemoveFirst(body, StartButtonId) + [StartButtonId];
      button := Some(if isPlaying then "Stop Guide" else "Start Guide");
    }

    /** `createCursor` */
    method CreateCursor()
      modifies this
      ensures View() == WithNewCursor(old(View()))
    {
      body := RemoveFirst(body, CursorId) + [CursorId];
      cursor := Some(Marker(false, None));
    }

    /** `createHighlight` */
    method CreateHighlight()
      modifies this
      ensures View() == WithNewHighlight(old(View()))
    {
      body := RemoveFirst(body, HighlightId) + [HighlightId];
      if StylesId !in head {
        head := head + [StylesId];
      }
      highlight := Some(Glow(false, None, false));
    }

    /** `createVisualElements` */
    method CreateVisualElements()
      modifies this
      ensures View() == VisualsCreated(old(View()))
    {
      if cursor.None? { CreateCursor(); }
      if highlight.None? { CreateHighlight(); }
    }

    /** `init`'s synchronous part; the result says which asynchronous continuation follows. */
    method Init() returns (next: InitNext)
      modifies this
      ensures next == InitOutcome(old(View()))
      ensures View() == InitState(old(View()))
    {
      RestoreState();
      if sessionId.Some? && sessionId.value != "" {
        CreateStartButton();
        next := if isPlaying then AwaitResume else Idle;
      } else {
        next := AwaitIndex;
      }
    }

    /** `fetchSessionIndex`: the first listed session is stored and saved; an error changes nothing. */
    method FetchSessionIndex(resp: IndexResponse) returns (session: Option<string>)
      modifies this
      ensures session == IndexSession(resp)
      ensures View() == AfterIndex(old(View()), resp)
    {
      session := None;
      if resp.IndexBody? && resp.sessions.Some? && |resp.sessions.value| > 0 {
        session := Some(resp.sessions.value[0]);
        sessionId := session;
        SaveState();
      }
    }

    /** `fetchSessionIndex().then(createStartButton)`, the first-visit branch of `init`. */
    method FetchIndexThenButton(resp: IndexResponse) returns (session: Option<string>)
      modifies this
      ensures session == IndexSession(resp)
      ensures View() == IndexLoaded(old(View()), resp)
    {
      session := FetchSessionIndex(resp);
      if session.Some? {
        CreateStartButton();
      }
    }

    /** The part of `stopPlayback` that hides the cursor and the highlight and relabels the button. */
    method HideVisuals()
      modifies this
      ensures View() == old(View()).(cursor := Hidden(old(cursor)), highlight := Dimmed(old(highlight)),
                                     button := if old(button).Some? then Some("Start Guide") else None)
    {
      cursor := Hidden(cursor);
      highlight := Dimmed(highlight);
      if button.Some? { button := Some("Start Guide"); }
    }

    /** `stopPlayback` */
    method StopPlayback()
      modifies this
      ensures View() == Stopped(old(View()))
    {
      ghost var before := View();
      HideVisuals();
      if targetElement.Some? {
        listening := listening - {targetElement.value.handle};
      }
      isPlaying, highlightLoop, targetElement := false, false, None;
      assert View() == Halted(before);
      SaveState();
    }

    /** `startPlayback` up to the fetch; `requested` says whether the recording is fetched. */
    method StartPlayback() returns (requested: bool)
      modifies this
      ensures requested == !old(isPlaying)
      ensures View() == StartRequested(old(View()))
    {
      if isPlaying { return false; }
      CreateVisualElements();
      requested := true;
    }

    /** The start button is clicked; `requested` says whether a recording fetch began. */
    method ClickStartButton() returns (requested: bool)
      modifies this
      ensures requested == !old(isPlaying)
      ensures View() == ButtonClicked(old(View()))
    {
      if isPlaying {
        StopPlayback();
        button := Some("Start Guide");
        requested := false;
      } else {
        requested := StartPlayback();
        button := Some("Stop Guide");
      }
    }

    /** `handleTargetClick` */
    method HandleTargetClick()
      modifies this
      ensures View() == Clicked(old(View()))
    {
      if targetElement.Some? {
        listening := listening - {targetElement.value.handle};
      }
      currentStep := currentStep + 1;
      SaveState();
    }

    /** `playNextStep`, with the pathname at the time of the call. */
    method PlayNextStep(currentPath: string) returns (outcome: StepOutcome)
      modifies this
      ensures outcome == StepOutcomeOf(old(View()), currentPath)
      ensures View() == AfterStep(old(View()), currentPath)
    {
      if !isPlaying || recording.None? { return Ignored; }
      if currentStep >= |recording.value.interactions| {
        StopPlayback();
        return Completed;
      }
      var interaction := recording.value.interactions[currentStep];
      var interactionPath := if interaction.pageInfo.Some? then interaction.pageInfo.value.path else "";
      if interactionPath != "" && currentPath != interactionPath {
        body := body + [AlertNodeId];
        return WrongPage(interactionPath);
      }
      return AwaitingDom(interaction);
    }

    /** `startPlayback`'s continuation once `loadRecording` settles; a success plays the current step. */
    method PlaybackLoaded(load: LoadResult, currentPath: string) returns (outcome: Option<StepOutcome>)
      modifies this
      ensures load.LoadFailed? ==> outcome.None? && View() == old(View())
      ensures load.Loaded? ==>
        && outcome == Some(StepOutcomeOf(PlaybackStarted(old(View()), load), currentPath))
        && View() == AfterStep(PlaybackStarted(old(View()), load), currentPath)
    {
      if load.LoadFailed? { return None; }
      recording := Some(load.recording);
      isPlaying := true;
      SaveState();
      var o := PlayNextStep(currentPath);
      outcome := Some(o);
    }

    /** `init`'s resume timer once the recording has loaded: create the visuals, then play. */
    method ResumeLoaded(load: LoadResult, currentPath: string) returns (outcome: Option<StepOutcome>)
      modifies this
      ensures load.LoadFailed? ==> outcome.None? && View() == old(View())
      ensures load.Loaded? ==>
        && outcome == Some(StepOutcomeOf(Resumed(old(View()), load), currentPath))
        && View() == AfterStep(Resumed(old(View()), load), currentPath)
    {
      if load.LoadFailed? { return None; }
      recording := Some(load.recording);
      CreateVisualElements();
      var o := PlayNextStep(currentPath);
      outcome := Some(o);
    }

    /** `moveCursorToElement` */
    method MoveCursorToElement(n: Node)
      modifies this
      ensures View() == CursorMoved(old(View()), n)
    {
      if cursor.Some? {
        cursor := Some(Marker(true, Some(CentrePoint(n.rect))));
      }
    }

    /** `highlightElement` */
    method HighlightElement(n: Node)
      modifies this
      ensures View() == Highlighted(old(View()), n)
    {
      if highlight.Some? {
        highlightLoop, targetElement := true, Some(n);
        highlight := Some(Glow(true, Some(HighlightBox(n.rect)), true));
      }
    }

    /** `continueWithElement` */
    method ContinueWithElement(n: Node)
      modifies this
      ensures View() == Continued(old(View()), n)
    {
      MoveCursorToElement(n);
      HighlightElement(n);
      listening := listening + {n.handle};
    }

    /** The 1-second timer: `found` false means the 2-second retry is scheduled. */
    method FirstAttempt(interaction: Interaction, page: Page) returns (found: bool)
      modifies this
      ensures found == Locate(Playback, interaction.element, page).Some?
      ensures View() == AfterFirstAttempt(old(View()), interaction, page)
    {
      var target := FindElementFromInteraction(Playback, interaction.element, page);
      found := target.Some?;
      if found {
        ContinueWithElement(target.value);
      }
    }

    /** The 2-second retry: `rescheduled` means the step was skipped and `playNextStep` is due in 500 ms. */
    method SecondAttempt(interaction: Interaction, page: Page) returns (rescheduled: bool)
      modifies this
      ensures rescheduled == Locate(Playback, interaction.element, page).None?
      ensures View() == AfterSecondAttempt(old(View()), interaction, page)
    {
      var target := FindElementFromInteraction(Playback, interaction.element, page);
      rescheduled := target.None?;
      if target.Some? {
        ContinueWithElement(target.value);
      } else {
        currentStep := currentStep + 1;
        SaveState();
      }
    }
  }
}
