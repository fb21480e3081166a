/** The board screen: the element-list handlers it hands to the canvas and the
    toolbars, and its own drawing-tool state. Every element-list handler
    computes a new `elements` list that is sent to the application as an
    `elements`-only board update; a handler that returns early sends nothing. */
module Bacheca {
  import opened Wrappers
  import opened BoardModel

  /** The permission test at the top of `handleAddElement`: the instructor may
      add anything; anyone else needs the type's `allow*` flag. A type string
      outside the four known ones passes every check. */
  function CanCreate(kind: ElementKind, isInstructor: bool, config: Config): (r: bool)
    ensures isInstructor || kind.UnknownType? ==> r
    ensures !isInstructor && config == DefaultConfig ==> (r <==> kind != LinkType)
  {
    isInstructor ||
    match kind
    case PostItType => config.allowPostIt
    case SondaggioType => config.allowSondaggio
    case EsercizioType => config.allowEsercizio
    case LinkType => config.allowLink
    case UnknownType(_) => true
  }

  /** The payload variant that belongs to each element type. */
  predicate DataMatchesKind(kind: ElementKind, d: ElementData) {
    match kind
    case PostItType => d.PostItContent?
    case SondaggioType => d.PollContent?
    case EsercizioType => d.ExerciseContent?
    case LinkType => d.LinkContent?
    case UnknownType(_) => d.NoContent?
  }

  /** `getDefaultElementData`: the payload a freshly added element starts with. */
  function DefaultData(kind: ElementKind): (d: ElementData)
    ensures DataMatchesKind(kind, d)
    ensures d.PostItContent? ==> d.note.text == "" && d.note.color == "yellow"
    ensures d.PollContent? ==> |d.poll.options| == 2 && !d.poll.multipleChoice && d.poll.votes == map[]
    ensures d.ExerciseContent? ==> d.exercise.responses == []
    ensures d.LinkContent? ==> d.link.url == ""
  {
    match kind
    case PostItType => PostItContent(PostItNote("", "yellow"))
    case SondaggioType => PollContent(Poll(DefaultQuestion, ["Opzione 1", "Opzione 2"], false, map[]))
    case EsercizioType => ExerciseContent(Exercise(DefaultQuestion, []))
    case LinkType => LinkContent(WebLink("", "Nuovo link"))
    case UnknownType(_) => NoContent
  }

  /** The author recorded on an element the current user adds. */
  function AuthorFor(isInstructor: bool, nickname: string): (r: string)
    ensures r == InstructorAuthor <==> isInstructor || nickname == InstructorAuthor
    ensures !isInstructor ==> r == nickname
  {
    if isInstructor then InstructorAuthor else nickname
  }

  /** `handleAddElement`: refuse a forbidden type (the alert), otherwise append
      one element carrying the given id and timestamp at position (100, 100). */
  function AddElement(elements: seq<Element>, config: Config, isInstructor: bool, nickname: string,
                      kind: ElementKind, id: string, createdAt: string): (r: Result<seq<Element>, ElementKind>)
    ensures r.Err? <==> !CanCreate(kind, isInstructor, config)
    ensures r.Err? ==> r.error == kind
    ensures r.Ok? ==> |r.value| == |elements| + 1 && r.value[..|elements|] == elements
    ensures r.Ok? ==> var e := r.value[|elements|];
      && e.id == id && e.kind == kind && e.position == Position(100, 100)
      && e.author == AuthorFor(isInstructor, nickname) && e.createdAt == createdAt
      && e.data == DefaultData(kind)
  {
    if !CanCreate(kind, isInstructor, config) then Err(kind)
    else Ok(elements + [Element(id, kind, Position(100, 100), AuthorFor(isInstructor, nickname), createdAt, DefaultData(kind))])
  }

  /** Every element whose payload fits its type. */
  predicate WellTyped(elements: seq<Element>) {
    forall k :: 0 <= k < |elements| ==> DataMatchesKind(elements[k].kind, elements[k].data)
  }

  /** Adding keeps every element's payload matching its type. */
  lemma AddKeepsWellTyped(elements: seq<Element>, config: Config, isInstructor: bool, nickname: string,
                          kind: ElementKind, id: string, createdAt: string)
    requires WellTyped(elements)
    ensures var r := AddElement(elements, config, isInstructor, nickname, kind, id, createdAt);
      r.Ok? ==> WellTyped(r.value)
  {
    var r := AddElement(elements, config, isInstructor, nickname, kind, id, createdAt);
    if r.Ok? {
      forall k | 0 <= k < |r.value| ensures DataMatchesKind(r.value[k].kind, r.value[k].data) {
        if k < |elements| {
          assert r.value[k] == r.value[..|elements|][k];
        }
      }
    }
  }

  /** The instructor is never refused, and the elements they add carry the
      instructor sentinel as author. */
  lemma InstructorAddAlwaysSucceeds(elements: seq<Element>, config: Config, nickname: string,
                                    kind: ElementKind, id: string, createdAt: string)
    ensures var r := AddElement(elements, config, true, nickname, kind, id, createdAt);
      r.Ok? && r.value[|elements|].author == InstructorAuthor
  {
  }

  /** A participant whose nickname is the sentinel itself is indistinguishable,
      as an author, from the instructor. */
  lemma SentinelNicknameCollides(elements: seq<Element>, config: Config, kind: ElementKind, id: string, createdAt: string)
    requires CanCreate(kind, false, config)
    ensures var r := AddElement(elements, config, false, InstructorAuthor, kind, id, createdAt);
      r.Ok? && r.value[|elements|].author == InstructorAuthor
  {
  }

  /** `handleUpdateElement`: every element with the given id is shallow-merged
      with the update; the others, the order and the length are kept. */
  function UpdateElement(elements: seq<Element>, id: string, u: ElementUpdate): (r: seq<Element>)
    ensures |r| == |elements|
    ensures forall k :: 0 <= k < |r| ==> r[k] == if elements[k].id == id then MergeElement(elements[k], u) else elements[k]
  {
    if elements == [] then []
    else [if elements[0].id == id then MergeElement(elements[0], u) else elements[0]] + UpdateElement(elements[1..], id, u)
  }

  /** Merging replaces exactly the keys present in the update: the `data`
      payload is replaced whole, never merged key by key. */
  lemma UpdateElementFields(elements: seq<Element>, id: string, u: ElementUpdate, k: int)
    requires 0 <= k < |elements| && elements[k].id == id
    ensures var e := UpdateElement(elements, id, u)[k];
      && e.id == elements[k].id && e.kind == elements[k].kind
      && e.author == elements[k].author && e.createdAt == elements[k].createdAt
      && e.position == (if u.position.Some? then u.position.value else elements[k].position)
      && e.data == (if u.data.Some? then u.data.value else elements[k].data)
  {
  }

  /** An update whose id matches no element changes nothing. */
  lemma UpdateAbsentIdIsNoOp(elements: seq<Element>, id: string, u: ElementUpdate)
    requires forall k :: 0 <= k < |elements| ==> elements[k].id != id
    ensures UpdateElement(elements, id, u) == elements
  {
  }

  /** `handleDeleteElement`: drop every element with the given id. */
  function DeleteElement(elements: seq<Element>, id: string): (r: seq<Element>)
    ensures |r| <= |elements|
    ensures forall e :: e in r <==> e in elements && e.id != id
    ensures (forall k :: 0 <= k < |elements| ==> elements[k].id != id) ==> r == elements
  {
    if elements == [] then []
    else if elements[0].id == id then DeleteElement(elements[1..], id)
    else [elements[0]] + DeleteElement(elements[1..], id)
  }

  /** Deleting distributes over concatenation: the kept elements stay in order. */
  lemma {:induction false} DeleteKeepsOrder(a: seq<Element>, b: seq<Element>, id: string)
    ensures DeleteElement(a + b, id) == DeleteElement(a, id) + DeleteElement(b, id)
  {
    if a == [] {
      assert a + b == b;
    } else {
      assert (a + b)[1..] == a[1..] + b;
      DeleteKeepsOrder(a[1..], b, id);
    }
  }

  /** Deleting the same id twice is deleting it once. */
  lemma DeleteIdempotent(elements: seq<Element>, id: string)
    ensures DeleteElement(DeleteElement(elements, id), id) == DeleteElement(elements, id)
  {
    var r := DeleteElement(elements, id);
    assert forall k :: 0 <= k < |r| ==> r[k] in r;
  }

  /** The elements `handleResetBoard` keeps: those authored by the instructor sentinel. */
  function InstructorElements(elements: seq<Element>): (r: seq<Element>)
    ensures |r| <= |elements|
    ensures forall e :: e in r <==> e in elements && e.author == InstructorAuthor
    ensures (forall k :: 0 <= k < |elements| ==> elements[k].author == InstructorAuthor) ==> r == elements
  {
    if elements == [] then []
    else if elements[0].author == InstructorAuthor then [elements[0]] + InstructorElements(elements[1..])
    else InstructorElements(elements[1..])
  }

  /** Keeping the instructor's elements distributes over concatenation. */
  lemma {:induction false} InstructorElementsKeepOrder(a: seq<Element>, b: seq<Element>)
    ensures InstructorElements(a + b) == InstructorElements(a) + InstructorElements(b)
  {
    if a == [] {
      assert a + b == b;
    } else {
      assert (a + b)[1..] == a[1..] + b;
      InstructorElementsKeepOrder(a[1..], b);
    }
  }

  /** `handleResetBoard`: when the confirmation is accepted, keep only the
      instructor's elements; when it is dismissed, send no update. */
  function ResetBoard(elements: seq<Element>, confirmed: bool): (r: Option<seq<Element>>)
    ensures r.Some? <==> confirmed
    ensures r.Some? ==> r.value == InstructorElements(elements)
  {
    if confirmed then Some(InstructorElements(elements)) else None
  }

  /** A second confirmed reset changes nothing. */
  lemma ResetIdempotent(elements: seq<Element>)
    ensures ResetBoard(ResetBoard(elements, true).value, true).value == ResetBoard(elements, true).value
  {
    var r := InstructorElements(elements);
    assert forall k :: 0 <= k < |r| ==> r[k] in r;
  }

  /** Three elements, two by the instructor and one by 'Mario': a reset keeps
      the instructor's two, in their order. */
  lemma ResetScenario(a: Element, b: Element, c: Element)
    requires a.author == InstructorAuthor && b.author == "Mario" && c.author == InstructorAuthor
    ensures ResetBoard([a, b, c], true) == Some([a, c])
  {
    assert [a, b, c][1..] == [b, c] && [b, c][1..] == [c] && [c][1..] == [];
    assert InstructorElements([c]) == [c];
    assert InstructorElements([b, c]) == [c];
    assert InstructorElements([a, b, c]) == [a] + [c] == [a, c];
  }

  /** `handleUpdateConfig`: `{ ...board.config, ...configUpdates }`, the
      toggled flags merged into the board's config. */
  function UpdateConfig(config: Config, u: ConfigUpdate): (r: Config)
    ensures u.allowPostIt.None? ==> r.allowPostIt == config.allowPostIt
    ensures u.allowDrawing.None? ==> r.allowDrawing == config.allowDrawing
    ensures u.allowSondaggio.None? ==> r.allowSondaggio == config.allowSondaggio
    ensures u.allowEsercizio.None? ==> r.allowEsercizio == config.allowEsercizio
    ensures u.allowLink.None? ==> r.allowLink == config.allowLink
    ensures u.isLocked.None? ==> r.isLocked == config.isLocked
    ensures u.allowPostIt.Some? ==> r.allowPostIt == u.allowPostIt.value
    ensures u.allowDrawing.Some? ==> r.allowDrawing == u.allowDrawing.value
    ensures u.allowSondaggio.Some? ==> r.allowSondaggio == u.allowSondaggio.value
    ensures u.allowEsercizio.Some? ==> r.allowEsercizio == u.allowEsercizio.value
    ensures u.allowLink.Some? ==> r.allowLink == u.allowLink.value
    ensures u.isLocked.Some? ==> r.isLocked == u.isLocked.value
  {
    Config(
      u.allowPostIt.GetOr(config.allowPostIt),
      u.allowDrawing.GetOr(config.allowDrawing),
      u.allowSondaggio.GetOr(config.allowSondaggio),
      u.allowEsercizio.GetOr(config.allowEsercizio),
      u.allowLink.GetOr(config.allowLink),
      u.isLocked.GetOr(config.isLocked))
  }

  /** Applying the same config update twice is applying it once. */
  lemma UpdateConfigIdempotent(config: Config, u: ConfigUpdate)
    ensures UpdateConfig(UpdateConfig(config, u), u) == UpdateConfig(config, u)
  {
  }

  datatype Tool = Pen | Eraser

  /** The drawing tool that governs the next stroke (never synchronised). */
  datatype DrawingState = DrawingState(isDrawing: bool, tool: Tool, color: string, thickness: int)

  /** The object the drawing panel passes to `onDrawingStateChange`. */
  datatype DrawingStateUpdate = DrawingStateUpdate(
    clearDrawing: bool,
    isDrawing: Option<bool>,
    tool: Option<Tool>,
    color: Option<string>,
    thickness: Option<int>)

  const InitialDrawingState: DrawingState := DrawingState(false, Pen, "#000000", 8)

  /** `{ ...prev, ...updates }` on the drawing-tool state. */
  function MergeDrawingState(s: DrawingState, u: DrawingStateUpdate): (r: DrawingState)
    ensures u.isDrawing.None? ==> r.isDrawing == s.isDrawing
    ensures u.isDrawing.Some? ==> r.isDrawing == u.isDrawing.value
    ensures u.tool.None? ==> r.tool == s.tool
    ensures u.tool.Some? ==> r.tool == u.tool.value
    ensures u.color.None? ==> r.color == s.color
    ensures u.color.Some? ==> r.color == u.color.value
    ensures u.thickness.None? ==> r.thickness == s.thickness
    ensures u.thickness.Some? ==> r.thickness == u.thickness.value
  {
    DrawingState(u.isDrawing.GetOr(s.isDrawing), u.tool.GetOr(s.tool), u.color.GetOr(s.color), u.thickness.GetOr(s.thickness))
  }

  /** The board component's own mutable state. */
  class BoardScreen {
    var drawingState: DrawingState
    var toolbarCollapsed: bool

    constructor ()
      ensures drawingState == InitialDrawingState && !toolbarCollapsed
    {
      drawingState := InitialDrawingState;
      toolbarCollapsed := false;
    }

    /** The instructor toolbar's collapse button. */
    method ToggleToolbar()
      modifies this`toolbarCollapsed
      ensures toolbarCollapsed == !old(toolbarCollapsed)
    {
      toolbarCollapsed := !toolbarCollapsed;
    }

    /** `handleDrawingStateChange`: a clear request, once confirmed, sends the
        board update that sets `drawingData` to null and leaves the tool state
        alone; any other request is merged into the tool state. */
    method HandleDrawingStateChange(u: DrawingStateUpdate, confirmed: bool) returns (update: Option<BoardUpdate>)
      modifies this`drawingState
      ensures u.clearDrawing ==> drawingState == old(drawingState)
      ensures u.clearDrawing ==> update == if confirmed then Some(DrawingUpdate(None)) else None
      ensures !u.clearDrawing ==> drawingState == MergeDrawingState(old(drawingState), u) && update == None
    {
      if u.clearDrawing {
        if confirmed {
          update := Some(DrawingUpdate(None));
        } else {
          update := None;
        }
        return;
      }
      drawingState := MergeDrawingState(drawingState, u);
      update := None;
    }
  }
}
