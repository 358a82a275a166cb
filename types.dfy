/** The records of `types.ts`: the application's state and the entries of a
    generated timeline. They carry no behaviour of their own. */
module Types {
  import opened Outcomes

  datatype View = Selection | Simulating

  datatype HistoricalEvent = HistoricalEvent(id: string, name: string, description: string, proposedChange: string)

  /** The three kinds of timeline entry: a dated event, a section header (its title is
      kept in `year`), and the closing summary of a timeline whose influence faded. */
  datatype Kind = Event | Header | Summary

  /** One entry of the timeline. `year` is `number | string` in the source; the model
      keeps its text. The two image fields are absent until the application sets them. */
  datatype Consequence = Consequence(
    id: string,
    year: string,
    event: string,
    kind: Kind,
    imageUrl: Option<string>,
    imageIsLoading: Option<bool>)

  datatype Role = User | Model

  datatype ChatMessage = ChatMessage(role: Role, text: string)

  /** The observer's remarks for the start, the middle and the end of a timeline. */
  datatype Commentary = Commentary(initial: Option<string>, mid: Option<string>, final: Option<string>)

  datatype DrillDownModalState = DrillDownModalState(
    isOpen: bool,
    isLoading: bool,
    content: Option<string>,
    consequence: Option<Consequence>)

  datatype AppState = AppState(
    view: View,
    selectedEvent: Option<HistoricalEvent>,
    consequences: seq<Consequence>,
    commentary: Option<Commentary>,
    isLoading: bool,
    error: Option<string>,
    isChatOpen: bool,
    chatHistory: seq<ChatMessage>,
    isChatLoading: bool,
    isSimulationComplete: bool,
    drillDownModal: DrillDownModalState)

  /** The title of the header that opens the medium-term section. */
  const MediumTermTitle: string := "Medium-Term Consequences"

  /** The title of the header that opens the far-future section. */
  const FutureTitle: string := "Further in the Future..."
}
