/** The whiteboard's entities: boards, their capability flags, the elements
    placed on them (a tagged union on the element type) and the participant
    roster; plus the shallow `{ ...target, ...updates }` merges the handlers
    use to change them. */
module BoardModel {
  import opened Wrappers

  /** The author value that marks an element as created by the instructor. */
  const InstructorAuthor: string := "formatore"

  /** Capability flags of a board. */
  datatype Config = Config(
    allowPostIt: bool,
    allowDrawing: bool,
    allowSondaggio: bool,
    allowEsercizio: bool,
    allowLink: bool,
    isLocked: bool)

  /** The flags every new board (and the demo board) starts with. */
  const DefaultConfig: Config := Config(
    allowPostIt := true, allowDrawing := false, allowSondaggio := true,
    allowEsercizio := true, allowLink := false, isLocked := false)

  datatype Position = Position(x: int, y: int)

  /** The placeholder question of a new poll or exercise; seeing it (or an
      empty question) makes a component open in editing mode. */
  const DefaultQuestion: string := "Nuova domanda"

  /** The `type` string of an element: the four known kinds, or any other tag. */
  datatype ElementKind = PostItType | SondaggioType | EsercizioType | LinkType | UnknownType(tag: string)

  /** A vote map sends a participant nickname to the option indices selected. */
  type Votes = map<string, seq<int>>

  datatype PostItNote = PostItNote(text: string, color: string)
  datatype Poll = Poll(question: string, options: seq<string>, multipleChoice: bool, votes: Votes)
  datatype Response = Response(author: string, text: string, timestamp: string)
  datatype Exercise = Exercise(question: string, responses: seq<Response>)
  datatype WebLink = WebLink(url: string, title: string)

  /** The `data` payload of an element; `NoContent` is the `{}` of an unknown type. */
  datatype ElementData =
    | PostItContent(note: PostItNote)
    | PollContent(poll: Poll)
    | ExerciseContent(exercise: Exercise)
    | LinkContent(link: WebLink)
    | NoContent

  datatype Element = Element(
    id: string,
    kind: ElementKind,
    position: Position,
    author: string,
    createdAt: string,
    data: ElementData)

  datatype Participant = Participant(nickname: string, joinedAt: string, lastSeen: string)

  datatype Board = Board(
    id: string,
    title: string,
    createdAt: string,
    config: Config,
    elements: seq<Element>,
    participants: seq<Participant>,
    drawingData: Option<string>)

  /** The keys an element component puts in the object it passes to `onUpdate`. */
  datatype ElementUpdate = ElementUpdate(position: Option<Position>, data: Option<ElementData>)

  function PositionUpdate(p: Position): ElementUpdate { ElementUpdate(Some(p), None) }

  /** The elements' `handleDragStop`: the position where the drag ended is
      sent, as a position-only update, exactly when `allowed` holds. The poll
      and the note pass `canEdit`; the exercise and the link pass `isInstructor`. */
  function DragStop(allowed: bool, p: Position): (r: Option<ElementUpdate>)
    ensures r.Some? <==> allowed
    ensures r.Some? ==> r.value.position == Some(p) && r.value.data.None?
  {
    if allowed then Some(PositionUpdate(p)) else None
  }

  /** `{ ...el, ...updates }`: each key present in the update replaces that field
      wholesale (no deep merge of `data`); every other field is kept. */
  function MergeElement(e: Element, u: ElementUpdate): (r: Element)
    ensures r.id == e.id && r.kind == e.kind && r.author == e.author && r.createdAt == e.createdAt
    ensures u.position.None? ==> r.position == e.position
    ensures u.position.Some? ==> r.position == u.position.value
    ensures u.data.None? ==> r.data == e.data
    ensures u.data.Some? ==> r.data == u.data.value
  {
    e.(position := u.position.GetOr(e.position), data := u.data.GetOr(e.data))
  }

  /** The update holding the keys of both, `later` winning on a shared key. */
  function CombineElementUpdates(earlier: ElementUpdate, later: ElementUpdate): ElementUpdate {
    ElementUpdate(
      if later.position.Some? then later.position else earlier.position,
      if later.data.Some? then later.data else earlier.data)
  }

  /** Two successive merges are one merge of the combined update (last write wins). */
  lemma MergeElementTwice(e: Element, u1: ElementUpdate, u2: ElementUpdate)
    ensures MergeElement(MergeElement(e, u1), u2) == MergeElement(e, CombineElementUpdates(u1, u2))
  {
  }

  /** The object passed to `onUpdateBoard`: any subset of the board's fields. */
  datatype BoardUpdate = BoardUpdate(
    title: Option<string>,
    config: Option<Config>,
    elements: Option<seq<Element>>,
    participants: Option<seq<Participant>>,
    drawingData: Option<Option<string>>)

  function TitleUpdate(t: string): BoardUpdate { BoardUpdate(Some(t), None, None, None, None) }
  function DrawingUpdate(d: Option<string>): BoardUpdate { BoardUpdate(None, None, None, None, Some(d)) }

  /** `{ ...board, ...updates }`. */
  function MergeBoard(b: Board, u: BoardUpdate): (r: Board)
    ensures r.id == b.id && r.createdAt == b.createdAt
    ensures u.title.None? ==> r.title == b.title
    ensures u.title.Some? ==> r.title == u.title.value
    ensures u.config.None? ==> r.config == b.config
    ensures u.config.Some? ==> r.config == u.config.value
    ensures u.elements.None? ==> r.elements == b.elements
    ensures u.elements.Some? ==> r.elements == u.elements.value
    ensures u.participants.None? ==> r.participants == b.participants
    ensures u.participants.Some? ==> r.participants == u.participants.value
    ensures u.drawingData.None? ==> r.drawingData == b.drawingData
    ensures u.drawingData.Some? ==> r.drawingData == u.drawingData.value
  {
    b.(title := u.title.GetOr(b.title),
       config := u.config.GetOr(b.config),
       elements := u.elements.GetOr(b.elements),
       participants := u.participants.GetOr(b.participants),
       drawingData := u.drawingData.GetOr(b.drawingData))
  }

  /** The flags a permission toggle passes to `onUpdateConfig`. */
  datatype ConfigUpdate = ConfigUpdate(
    allowPostIt: Option<bool>,
    allowDrawing: Option<bool>,
    allowSondaggio: Option<bool>,
    allowEsercizio: Option<bool>,
    allowLink: Option<bool>,
    isLocked: Option<bool>)
}
