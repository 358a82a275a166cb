/** The state updaters of `App.tsx`. Every React `setAppState(prev => ...)` is a
    function from the previous `AppState` to the next; an async handler is the
    composition of its updaters in the order it issues them, with the results of the
    generative-AI calls as inputs. */
module App {
  import opened Outcomes
  import opened Strings
  import opened Types
  import opened GeminiService

  const InitialButlerMessage: ChatMessage := ChatMessage(Model, "A very good day to you, Sir. I am Bt. Sebastian, at your disposal. How may I assist with your alterations to the historical record?")
  const ButlerApology: string := "My sincerest apologies, Sir, but it appears there is some interference on the line. I find myself unable to respond at this moment."
  const SimulationFailurePrefix: string := "Failed to simulate timeline. "
  const ClosedDrillDown: DrillDownModalState := DrillDownModalState(false, false, None, None)

  /** The state the application starts in. */
  function InitialState(): (r: AppState)
    ensures r.view == Selection && r.selectedEvent.None? && r.consequences == []
    ensures r.commentary.None? && !r.isLoading && r.error.None? && !r.isSimulationComplete
    ensures !r.isChatOpen && r.chatHistory == [] && !r.isChatLoading && r.drillDownModal == ClosedDrillDown
  {
    AppState(Selection, None, [], None, false, None, false, [], false, false, ClosedDrillDown)
  }

  // ---------------------------------------------------------------------------
  // Simulation (`handleStartSimulation`, `fetchImages`, `handleReset`)
  // ---------------------------------------------------------------------------

  /** The first update of `handleStartSimulation`: switch to the timeline view with the
      chosen event and a cleared, loading simulation; chat and drill-down untouched. */
  function StartSimulation(s: AppState, e: HistoricalEvent): (r: AppState)
    ensures r.view == Simulating && r.selectedEvent == Some(e)
    ensures r.consequences == [] && r.commentary.None? && r.error.None?
    ensures r.isLoading && !r.isSimulationComplete
    ensures r.(view := s.view, selectedEvent := s.selectedEvent, consequences := s.consequences,
               commentary := s.commentary, isLoading := s.isLoading, error := s.error,
               isSimulationComplete := s.isSimulationComplete) == s
  {
    s.(view := Simulating, selectedEvent := Some(e), consequences := [], commentary := None,
       isLoading := true, error := None, isSimulationComplete := false)
  }

  /** `timelineConsequences.map(c => c.type === 'event' ? { ...c, imageIsLoading: true } : c)`:
      every event entry is marked as waiting for its image; nothing else changes. */
  function WithImagesLoading(cs: seq<Consequence>): (r: seq<Consequence>)
    ensures |r| == |cs|
    ensures forall i :: 0 <= i < |cs| ==> r[i].(imageIsLoading := cs[i].imageIsLoading) == cs[i]
    ensures forall i :: 0 <= i < |cs| ==>
      r[i].imageIsLoading == if cs[i].kind == Event then Some(true) else cs[i].imageIsLoading
  {
    seq(|cs|, i requires 0 <= i < |cs| =>
      if cs[i].kind == Event then cs[i].(imageIsLoading := Some(true)) else cs[i])
  }

  /** The update after a successful `generateTimeline`. */
  function TimelineLoaded(s: AppState, cs: seq<Consequence>): (r: AppState)
    ensures r.consequences == WithImagesLoading(cs) && !r.isLoading
    ensures r.(consequences := s.consequences, isLoading := s.isLoading) == s
  {
    s.(consequences := WithImagesLoading(cs), isLoading := false)
  }

  /** The update after `generateTimeline` throws. */
  function SimulationFailed(s: AppState, message: string): (r: AppState)
    ensures !r.isLoading && r.error == Some(SimulationFailurePrefix + message)
    ensures r.(isLoading := s.isLoading, error := s.error) == s
  {
    s.(isLoading := false, error := Some(SimulationFailurePrefix + message))
  }

  /** `handleStartSimulation` up to the end of its `try`/`catch`, given the outcome of
      `generateTimeline`. */
  function RunSimulation(s: AppState, e: HistoricalEvent, outcome: Result<seq<Consequence>>): AppState {
    var started := StartSimulation(s, e);
    if outcome.Ok? then TimelineLoaded(started, outcome.value) else SimulationFailed(started, outcome.message)
  }

  /** A simulation run leaves the loading state either way. A failure leaves an empty
      timeline and the prefixed error; a success shows the generated entries with no
      error. The chat and the drill-down are never touched. */
  lemma RunSimulationOutcome(s: AppState, e: HistoricalEvent, outcome: Result<seq<Consequence>>)
    ensures var r := RunSimulation(s, e, outcome);
      && r.view == Simulating && r.selectedEvent == Some(e) && !r.isLoading
      && r.commentary.None? && !r.isSimulationComplete
      && (outcome.Failure? ==> r.consequences == [] && r.error == Some(SimulationFailurePrefix + outcome.message))
      && (outcome.Ok? ==> r.error.None? && r.consequences == WithImagesLoading(outcome.value))
      && r.isChatOpen == s.isChatOpen && r.chatHistory == s.chatHistory
      && r.isChatLoading == s.isChatLoading && r.drillDownModal == s.drillDownModal
  {
  }

  /** The entries after an image for entry `id` arrives: every entry with that id gets
      the image and stops loading; the others are unchanged. */
  function MarkImage(cs: seq<Consequence>, id: string, url: string): (r: seq<Consequence>)
    ensures |r| == |cs|
    ensures forall i :: 0 <= i < |cs| ==>
      r[i] == if cs[i].id == id then cs[i].(imageUrl := Some(url), imageIsLoading := Some(false)) else cs[i]
  {
    seq(|cs|, i requires 0 <= i < |cs| =>
      if cs[i].id == id then cs[i].(imageUrl := Some(url), imageIsLoading := Some(false)) else cs[i])
  }

  /** The update `fetchImages` issues when the image of entry `id` arrives. */
  function ImageArrived(s: AppState, id: string, url: string): (r: AppState)
    ensures r.consequences == MarkImage(s.consequences, id, url)
    ensures r.(consequences := s.consequences) == s
  {
    s.(consequences := MarkImage(s.consequences, id, url))
  }

  /** Images for different entries may arrive in either order with the same result. */
  lemma ImageArrivalsCommute(s: AppState, id1: string, url1: string, id2: string, url2: string)
    requires id1 != id2
    ensures ImageArrived(ImageArrived(s, id1, url1), id2, url2) == ImageArrived(ImageArrived(s, id2, url2), id1, url1)
  {
    var a := MarkImage(MarkImage(s.consequences, id1, url1), id2, url2);
    var b := MarkImage(MarkImage(s.consequences, id2, url2), id1, url1);
    assert a == b;
  }

  /** Of two images for the same entry, the later one is what remains. */
  lemma ImageArrivalLastWins(s: AppState, id: string, url1: string, url2: string)
    ensures ImageArrived(ImageArrived(s, id, url1), id, url2) == ImageArrived(s, id, url2)
  {
    assert MarkImage(MarkImage(s.consequences, id, url1), id, url2) == MarkImage(s.consequences, id, url2);
  }

  /** `handleReset`: back to event selection with every simulation field cleared and the
      drill-down closed; the chat survives. */
  function Reset(s: AppState): (r: AppState)
    ensures r.view == Selection && r.selectedEvent.None? && r.consequences == []
    ensures r.commentary.None? && !r.isLoading && r.error.None? && !r.isSimulationComplete
    ensures r.drillDownModal == ClosedDrillDown
    ensures r.isChatOpen == s.isChatOpen && r.chatHistory == s.chatHistory && r.isChatLoading == s.isChatLoading
  {
    s.(view := Selection, selectedEvent := None, consequences := [], commentary := None,
       isLoading := false, error := None, isSimulationComplete := false, drillDownModal := ClosedDrillDown)
  }

  /** Resetting forgets everything a simulation run did, whatever its outcome. */
  lemma ResetForgetsSimulation(s: AppState, e: HistoricalEvent, outcome: Result<seq<Consequence>>)
    ensures Reset(RunSimulation(s, e, outcome)) == Reset(s)
    ensures Reset(Reset(s)) == Reset(s)
  {
  }

  /** An image that arrives after a reset finds no entry and changes nothing. */
  lemma ImageAfterReset(s: AppState, id: string, url: string)
    ensures ImageArrived(Reset(s), id, url) == Reset(s)
  {
  }

  /** `handleSimulationComplete`. */
  function SimulationComplete(s: AppState): (r: AppState)
    ensures r.isSimulationComplete
    ensures r.(isSimulationComplete := s.isSimulationComplete) == s
  {
    s.(isSimulationComplete := true)
  }

  // ---------------------------------------------------------------------------
  // Chat (`handleToggleChat`, `handleResetChat`, `handleSendMessageToButler`)
  // ---------------------------------------------------------------------------

  /** `handleToggleChat`: flips the panel; opening it with no history seeds the butler's
      greeting. */
  function ToggleChat(s: AppState): (r: AppState)
    ensures r.isChatOpen == !s.isChatOpen
    ensures r.chatHistory == if !s.isChatOpen && s.chatHistory == [] then [InitialButlerMessage] else s.chatHistory
    ensures r.(isChatOpen := s.isChatOpen, chatHistory := s.chatHistory) == s
  {
    var isOpening := !s.isChatOpen;
    if isOpening && |s.chatHistory| == 0 then s.(isChatOpen := true, chatHistory := [InitialButlerMessage])
    else s.(isChatOpen := !s.isChatOpen)
  }

  /** An open chat panel never shows an empty history. */
  lemma OpenChatHasHistory(s: AppState)
    ensures ToggleChat(s).isChatOpen ==> ToggleChat(s).chatHistory != []
  {
  }

  /** Toggling twice restores the state, except that an empty history has been seeded
      with the greeting by the opening among the two toggles. */
  lemma ToggleChatTwice(s: AppState)
    ensures ToggleChat(ToggleChat(s)) ==
      if s.chatHistory == [] then s.(chatHistory := [InitialButlerMessage]) else s
  {
  }

  /** `handleResetChat`. */
  function ResetChat(s: AppState): (r: AppState)
    ensures r.chatHistory == [InitialButlerMessage] && !r.isChatLoading
    ensures r.(chatHistory := s.chatHistory, isChatLoading := s.isChatLoading) == s
  {
    s.(chatHistory := [InitialButlerMessage], isChatLoading := false)
  }

  /** The first update of `handleSendMessageToButler`: the user's message is appended
      and a reply is awaited. */
  function UserMessage(s: AppState, message: string): (r: AppState)
    ensures r.chatHistory == s.chatHistory + [ChatMessage(User, message)] && r.isChatLoading
    ensures r.(chatHistory := s.chatHistory, isChatLoading := s.isChatLoading) == s
  {
    s.(chatHistory := s.chatHistory + [ChatMessage(User, message)], isChatLoading := true)
  }

  /** The butler's line: the reply, or the fixed apology when the call fails. */
  function ButlerLine(reply: Result<string>): (r: ChatMessage)
    ensures r.role == Model
    ensures r.text == if reply.Ok? then reply.value else ButlerApology
  {
    ChatMessage(Model, if reply.Ok? then reply.value else ButlerApology)
  }

  /** The second update of `handleSendMessageToButler`: the history built when the
      message was sent, followed by the butler's line. */
  function ButlerReplied(s: AppState, sent: seq<ChatMessage>, reply: Result<string>): (r: AppState)
    ensures r.chatHistory == sent + [ButlerLine(reply)] && !r.isChatLoading
    ensures r.(chatHistory := s.chatHistory, isChatLoading := s.isChatLoading) == s
  {
    s.(chatHistory := sent + [ButlerLine(reply)], isChatLoading := false)
  }

  /** `handleSendMessageToButler` as its two updates in order. */
  function SendMessage(s: AppState, message: string, reply: Result<string>): AppState {
    var sent := s.chatHistory + [ChatMessage(User, message)];
    ButlerReplied(UserMessage(s, message), sent, reply)
  }

  /** A send appends exactly two messages: the user's, then one from the butler (the
      reply or the apology); the chat is no longer loading and nothing else changes. */
  lemma SendAppendsExchange(s: AppState, message: string, reply: Result<string>)
    ensures var r := SendMessage(s, message, reply);
      && |r.chatHistory| == |s.chatHistory| + 2
      && r.chatHistory[..|s.chatHistory|] == s.chatHistory
      && r.chatHistory[|s.chatHistory|] == ChatMessage(User, message)
      && r.chatHistory[|s.chatHistory| + 1].role == Model
      && (reply.Ok? ==> r.chatHistory[|s.chatHistory| + 1].text == reply.value)
      && (reply.Failure? ==> r.chatHistory[|s.chatHistory| + 1].text == ButlerApology)
      && !r.isChatLoading
      && r.(chatHistory := s.chatHistory, isChatLoading := s.isChatLoading) == s
  {
    var r := SendMessage(s, message, reply);
    assert r.chatHistory == s.chatHistory + [ChatMessage(User, message), ButlerLine(reply)];
  }

  /** What the butler is told about the screen, without the wording around it. */
  datatype ChatContext =
    | OnSelectionScreen
    | Watching(name: string, proposedChange: string)
    | Reviewing(name: string, proposedChange: string, report: string)

  /** One line of the after-action report; headers are listed too, under their title. */
  function ReportLine(c: Consequence): string {
    "- " + c.year + ": " + c.event
  }

  /** The report lines of a timeline, one per entry, in order. */
  function ReportLines(cs: seq<Consequence>): (r: seq<string>)
    ensures |r| == |cs|
    ensures forall i :: 0 <= i < |cs| ==> r[i] == ReportLine(cs[i])
  {
    seq(|cs|, i requires 0 <= i < |cs| => ReportLine(cs[i]))
  }

  /** The three-way choice of `appContext`. */
  function ContextFor(s: AppState): (r: ChatContext)
    ensures r.OnSelectionScreen? <==> s.view != Simulating || s.selectedEvent.None?
    ensures r.Reviewing? <==> s.view == Simulating && s.selectedEvent.Some? && s.isSimulationComplete
    ensures !r.OnSelectionScreen? ==>
      r.name == s.selectedEvent.value.name && r.proposedChange == s.selectedEvent.value.proposedChange
    ensures r.Reviewing? ==> r.report == Join(ReportLines(s.consequences), "\n")
  {
    if s.view == Simulating && s.selectedEvent.Some? then
      var e := s.selectedEvent.value;
      if s.isSimulationComplete then Reviewing(e.name, e.proposedChange, Join(ReportLines(s.consequences), "\n"))
      else Watching(e.name, e.proposedChange)
    else OnSelectionScreen
  }

  // ---------------------------------------------------------------------------
  // Drill-down (`handleOpenDrillDown`, `handleCloseDrillDown`)
  // ---------------------------------------------------------------------------

  /** `findIndex(c => c.id === id)`: the first position holding `id`, or -1. */
  function IndexOfId(cs: seq<Consequence>, id: string): (i: int)
    ensures -1 <= i < |cs|
    ensures i >= 0 ==> cs[i].id == id && forall j :: 0 <= j < i ==> cs[j].id != id
    ensures i == -1 ==> forall j :: 0 <= j < |cs| ==> cs[j].id != id
  {
    if cs == [] then -1
    else if cs[0].id == id then 0
    else
      var k := IndexOfId(cs[1..], id);
      if k == -1 then -1 else k + 1
  }

  /** `consequences.slice(0, findIndex(...) + 1)`: the timeline up to and including the
      first entry with the clicked entry's id, or nothing when no entry has it. */
  function DrillDownContext(cs: seq<Consequence>, c: Consequence): (r: seq<Consequence>)
    ensures |r| <= |cs| && r == cs[..|r|]
    ensures r == [] <==> forall j :: 0 <= j < |cs| ==> cs[j].id != c.id
    ensures r != [] ==> r[|r| - 1].id == c.id && forall j :: 0 <= j < |r| - 1 ==> r[j].id != c.id
  {
    cs[..IndexOfId(cs, c.id) + 1]
  }

  /** The first update of `handleOpenDrillDown`: nothing without a selected event,
      otherwise the modal opens, loading, on the clicked entry. */
  function OpenDrillDown(s: AppState, c: Consequence): (r: AppState)
    ensures s.selectedEvent.None? ==> r == s
    ensures s.selectedEvent.Some? ==> r.drillDownModal == DrillDownModalState(true, true, None, Some(c))
    ensures r.(drillDownModal := s.drillDownModal) == s
  {
    if s.selectedEvent.None? then s
    else s.(drillDownModal := DrillDownModalState(true, true, None, Some(c)))
  }

  /** The second update of `handleOpenDrillDown`: the text is in. */
  function DrillDownLoaded(s: AppState, text: string): (r: AppState)
    ensures r.drillDownModal == s.drillDownModal.(isLoading := false, content := Some(text))
    ensures r.(drillDownModal := s.drillDownModal) == s
  {
    s.(drillDownModal := s.drillDownModal.(isLoading := false, content := Some(text)))
  }

  /** `handleOpenDrillDown` as its two updates in order, given the outcome of the
      drill-down request. */
  function DrillDown(s: AppState, c: Consequence, reply: Result<string>): AppState {
    if s.selectedEvent.None? then s
    else DrillDownLoaded(OpenDrillDown(s, c), DrillDownText(reply))
  }

  /** A drill-down with a selected event ends with the modal open on the clicked entry,
      no longer loading, showing the reply or the fallback text; without one, nothing
      happens. Only the modal changes. */
  lemma DrillDownShowsText(s: AppState, c: Consequence, reply: Result<string>)
    ensures var r := DrillDown(s, c, reply);
      && (s.selectedEvent.None? ==> r == s)
      && (s.selectedEvent.Some? ==>
            r.drillDownModal == DrillDownModalState(true, false, Some(DrillDownText(reply)), Some(c)))
      && r.(drillDownModal := s.drillDownModal) == s
  {
  }

  /** `handleCloseDrillDown`. */
  function CloseDrillDown(s: AppState): (r: AppState)
    ensures r.drillDownModal == ClosedDrillDown
    ensures r.(drillDownModal := s.drillDownModal) == s
  {
    s.(drillDownModal := ClosedDrillDown)
  }

  /** Closing undoes opening, whether or not the text has come in. */
  lemma CloseAfterOpen(s: AppState, c: Consequence, reply: Result<string>)
    ensures CloseDrillDown(DrillDown(s, c, reply)) == CloseDrillDown(s)
    ensures CloseDrillDown(OpenDrillDown(s, c)) == CloseDrillDown(s)
  {
  }

  // ---------------------------------------------------------------------------
  // Commentary (`fetchCommentaries`)
  // ---------------------------------------------------------------------------

  /** `{ ...prevState.commentary }`: spreading a missing commentary gives no remarks. */
  function Spread(c: Option<Commentary>): (r: Commentary)
    ensures c.Some? ==> r == c.value
    ensures c.None? ==> r.initial.None? && r.mid.None? && r.final.None?
  {
    if c.Some? then c.value else Commentary(None, None, None)
  }

  function SetInitialRemark(s: AppState, text: string): (r: AppState)
    ensures r.commentary == Some(Spread(s.commentary).(initial := Some(text)))
    ensures r.(commentary := s.commentary) == s
  {
    s.(commentary := Some(Spread(s.commentary).(initial := Some(text))))
  }

  function SetMidRemark(s: AppState, text: string): (r: AppState)
    ensures r.commentary == Some(Spread(s.commentary).(mid := Some(text)))
    ensures r.(commentary := s.commentary) == s
  {
    s.(commentary := Some(Spread(s.commentary).(mid := Some(text))))
  }

  function SetFinalRemark(s: AppState, text: string): (r: AppState)
    ensures r.commentary == Some(Spread(s.commentary).(final := Some(text)))
    ensures r.(commentary := s.commentary) == s
  {
    s.(commentary := Some(Spread(s.commentary).(final := Some(text))))
  }

  /** `findIndex(c => c.year === y)`: the first position whose year is `y`, or -1. */
  function IndexOfYear(cs: seq<Consequence>, y: string): (i: int)
    ensures -1 <= i < |cs|
    ensures i >= 0 ==> cs[i].year == y && forall j :: 0 <= j < i ==> cs[j].year != y
    ensures i == -1 ==> forall j :: 0 <= j < |cs| ==> cs[j].year != y
  {
    if cs == [] then -1
    else if cs[0].year == y then 0
    else
      var k := IndexOfYear(cs[1..], y);
      if k == -1 then -1 else k + 1
  }

  /** The entry right after the first entry whose year is `title`, if both exist. */
  function EntryAfterTitle(cs: seq<Consequence>, title: string): (r: Option<Consequence>)
    ensures r.Some? <==> 0 <= IndexOfYear(cs, title) < |cs| - 1
    ensures r.Some? ==> r.value == cs[IndexOfYear(cs, title) + 1]
  {
    var i := IndexOfYear(cs, title);
    if i != -1 && i + 1 < |cs| then Some(cs[i + 1]) else None
  }

  /** The remark requests of `fetchCommentaries` in order, given each call's outcome:
      the initial remark always, the mid-point remark when an entry follows the
      medium-term header, the final remark when one follows the far-future header. */
  function FetchCommentaries(s: AppState, cs: seq<Consequence>,
                             initial: Result<string>, mid: Result<string>, final: Result<string>): AppState
  {
    var s1 := SetInitialRemark(s, CommentatorRemark(initial));
    var s2 := if EntryAfterTitle(cs, MediumTermTitle).Some? then SetMidRemark(s1, CommentatorRemark(mid)) else s1;
    if EntryAfterTitle(cs, FutureTitle).Some? then SetFinalRemark(s2, CommentatorRemark(final)) else s2
  }

  /** No raw entry uses a section title as its year (the lookup by year would otherwise
      stop at that entry instead of at the header). */
  predicate NoTitleYears(es: seq<RawEntry>) {
    forall j :: 0 <= j < |es| ==> es[j].year != MediumTermTitle && es[j].year != FutureTitle
  }

  predicate TitlesOnlyOnHeaders(t: StructuredTimeline) {
    NoTitleYears(t.immediate) && NoTitleYears(t.mediumTerm) &&
    (t.futureImpact.Some? ==> NoTitleYears(t.futureImpact.value.majorEvents))
  }

  /** In a flattened timeline whose entries do not use the titles as years, a section
      title occurs as a year exactly at its header. */
  lemma TitleYearsOfFlattened(cs: seq<Consequence>, t: StructuredTimeline, i: int)
    requires FlattenedFrom(cs, t) && TitlesOnlyOnHeaders(t)
    requires 0 <= i < |cs|
    ensures cs[i].year == MediumTermTitle <==> i == |t.immediate| && |t.mediumTerm| > 0
    ensures cs[i].year == FutureTitle <==> i == FutureStart(t) && t.futureImpact.Some?
  {
    var m := |t.immediate|;
    var p := FutureStart(t);
    assert MediumTermTitle[0] != FutureTitle[0];
    if i < m {
      assert IsEventFrom(cs[0 + i], t.immediate[i]);
    } else if |t.mediumTerm| > 0 && i == m {
      assert IsHeaderTitled(cs[m], MediumTermTitle);
    } else if |t.mediumTerm| > 0 && m < i < p {
      assert IsEventFrom(cs[m + 1 + (i - m - 1)], t.mediumTerm[i - m - 1]);
    } else if i == p {
      assert IsHeaderTitled(cs[p], FutureTitle);
    } else {
      var f := t.futureImpact.value;
      if |f.majorEvents| > 0 {
        assert IsEventFrom(cs[p + 1 + (i - p - 1)], f.majorEvents[i - p - 1]);
      } else {
        assert IsSummaryOf(cs[p + 1], f.summary);
      }
    }
  }

  /** The medium-term lookup of `fetchCommentaries` on a flattened timeline: it finds
      the first medium-term event exactly when there are medium-term events. */
  lemma MidAnchorOfFlattened(cs: seq<Consequence>, t: StructuredTimeline)
    requires FlattenedFrom(cs, t) && TitlesOnlyOnHeaders(t)
    ensures EntryAfterTitle(cs, MediumTermTitle).Some? <==> |t.mediumTerm| > 0
    ensures |t.mediumTerm| > 0 ==> IsEventFrom(EntryAfterTitle(cs, MediumTermTitle).value, t.mediumTerm[0])
  {
    var m := |t.immediate|;
    var i := IndexOfYear(cs, MediumTermTitle);
    if |t.mediumTerm| > 0 {
      TitleYearsOfFlattened(cs, t, m);
      if i != m {
        TitleYearsOfFlattened(cs, t, i);
      }
      assert IsEventFrom(cs[m + 1 + 0], t.mediumTerm[0]);
    } else if i != -1 {
      TitleYearsOfFlattened(cs, t, i);
    }
  }

  /** The far-future lookup of `fetchCommentaries` on a flattened timeline: it finds an
      entry exactly when `futureImpact` has major events or a non-empty summary, and
      that entry is the first major event or else the summary. */
  lemma FinalAnchorOfFlattened(cs: seq<Consequence>, t: StructuredTimeline)
    requires FlattenedFrom(cs, t) && TitlesOnlyOnHeaders(t)
    ensures EntryAfterTitle(cs, FutureTitle).Some? <==>
      t.futureImpact.Some? && (|t.futureImpact.value.majorEvents| > 0 || t.futureImpact.value.summary != "")
    ensures t.futureImpact.Some? && |t.futureImpact.value.majorEvents| > 0 ==>
      IsEventFrom(EntryAfterTitle(cs, FutureTitle).value, t.futureImpact.value.majorEvents[0])
    ensures t.futureImpact.Some? && |t.futureImpact.value.majorEvents| == 0 && t.futureImpact.value.summary != "" ==>
      IsSummaryOf(EntryAfterTitle(cs, FutureTitle).value, t.futureImpact.value.summary)
  {
    var p := FutureStart(t);
    var i := IndexOfYear(cs, FutureTitle);
    if t.futureImpact.Some? {
      var f := t.futureImpact.value;
      TitleYearsOfFlattened(cs, t, p);
      if i != p {
        TitleYearsOfFlattened(cs, t, i);
      }
      if |f.majorEvents| > 0 {
        assert IsEventFrom(cs[p + 1 + 0], f.majorEvents[0]);
      }
    } else if i != -1 {
      TitleYearsOfFlattened(cs, t, i);
    }
  }

  /** What `fetchCommentaries` leaves in the commentary: the initial remark always, and
      each of the other two exactly when its lookup finds an entry; remarks not
      requested keep their previous value, and nothing else changes. */
  lemma CommentaryOfLookups(s: AppState, cs: seq<Consequence>,
                            initial: Result<string>, mid: Result<string>, final: Result<string>)
    ensures var r := FetchCommentaries(s, cs, initial, mid, final);
      && r.commentary.Some?
      && r.commentary.value.initial == Some(CommentatorRemark(initial))
      && r.commentary.value.mid ==
           (if EntryAfterTitle(cs, MediumTermTitle).Some? then Some(CommentatorRemark(mid)) else Spread(s.commentary).mid)
      && r.commentary.value.final ==
           (if EntryAfterTitle(cs, FutureTitle).Some? then Some(CommentatorRemark(final)) else Spread(s.commentary).final)
      && r.(commentary := s.commentary) == s
  {
    var s1 := SetInitialRemark(s, CommentatorRemark(initial));
    var s2 := if EntryAfterTitle(cs, MediumTermTitle).Some? then SetMidRemark(s1, CommentatorRemark(mid)) else s1;
    var r := if EntryAfterTitle(cs, FutureTitle).Some? then SetFinalRemark(s2, CommentatorRemark(final)) else s2;
    assert r == FetchCommentaries(s, cs, initial, mid, final);
    assert s2.commentary.Some? && s2.(commentary := s.commentary) == s;
  }

  /** The commentary after `fetchCommentaries` on a flattened timeline: the initial
      remark always; the mid-point remark iff there are medium-term events; the final
      remark iff `futureImpact` has major events or a non-empty summary. */
  lemma CommentaryOfFlattened(s: AppState, cs: seq<Consequence>, t: StructuredTimeline,
                              initial: Result<string>, mid: Result<string>, final: Result<string>)
    requires FlattenedFrom(cs, t) && TitlesOnlyOnHeaders(t)
    ensures var r := FetchCommentaries(s, cs, initial, mid, final);
      && r.commentary.Some?
      && r.commentary.value.initial == Some(CommentatorRemark(initial))
      && r.commentary.value.mid ==
           (if |t.mediumTerm| > 0 then Some(CommentatorRemark(mid)) else Spread(s.commentary).mid)
      && r.commentary.value.final ==
           (if t.futureImpact.Some? && (|t.futureImpact.value.majorEvents| > 0 || t.futureImpact.value.summary != "")
            then Some(CommentatorRemark(final)) else Spread(s.commentary).final)
  {
    MidAnchorOfFlattened(cs, t);
    FinalAnchorOfFlattened(cs, t);
    CommentaryOfLookups(s, cs, initial, mid, final);
  }
}
