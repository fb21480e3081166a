/** The canvas: who may interact with and who may edit each element, which
    component draws each element type, when panning is off and when the
    read-only banner is shown. */
module CanvasView {
  import opened Wrappers
  import opened BoardModel
  import Bacheca
  import Esercizio

  /** `canInteract`: the instructor always; anyone else only on an unlocked board. */
  function CanInteract(isInstructor: bool, config: Config): (r: bool)
    ensures isInstructor ==> r
    ensures r <==> !ShowsLockedBanner(isInstructor, config)
  {
    isInstructor || !config.isLocked
  }

  /** `canEdit`: the instructor edits everything; a participant edits exactly
      what they authored. */
  function CanEdit(isInstructor: bool, e: Element, nickname: string): (r: bool)
    ensures isInstructor ==> r
    ensures !isInstructor ==> (r <==> e.author == nickname)
  {
    isInstructor || e.author == nickname
  }

  /** Whoever adds an element may edit it, as long as their nickname is unchanged. */
  lemma AddedElementIsEditable(elements: seq<Element>, config: Config, isInstructor: bool, nickname: string,
                               kind: ElementKind, id: string, createdAt: string)
    requires Bacheca.AddElement(elements, config, isInstructor, nickname, kind, id, createdAt).Ok?
    ensures CanEdit(isInstructor, Bacheca.AddElement(elements, config, isInstructor, nickname, kind, id, createdAt).value[|elements|], nickname)
  {
  }

  /** `isPanningDisabled`: zoom and pan are off while drawing mode is on. */
  function IsPanningDisabled(ds: Bacheca.DrawingState): (r: bool)
    ensures ds == Bacheca.InitialDrawingState ==> !r
  {
    ds.isDrawing
  }

  /** After a drawing-tool change, zoom and pan are off exactly when that
      change turned drawing mode on, or left it on. */
  lemma PanningFollowsDrawingMode(s: Bacheca.DrawingState, u: Bacheca.DrawingStateUpdate)
    ensures u.isDrawing.Some? ==> (IsPanningDisabled(Bacheca.MergeDrawingState(s, u)) <==> u.isDrawing.value)
    ensures u.isDrawing.None? ==> IsPanningDisabled(Bacheca.MergeDrawingState(s, u)) == IsPanningDisabled(s)
  {
  }

  /** The "locked board, view only" banner. */
  function ShowsLockedBanner(isInstructor: bool, config: Config): (r: bool)
    ensures r ==> !isInstructor
    ensures config == DefaultConfig ==> !r
  {
    config.isLocked && !isInstructor
  }

  datatype Renderer = PostItView | SondaggioView | EsercizioView | LinkView

  /** The props `renderElement` passes: the poll and the exercise also receive
      the participant's nickname. */
  datatype ElementProps = ElementProps(
    renderer: Renderer,
    element: Element,
    isInstructor: bool,
    canEdit: bool,
    canInteract: bool,
    nickname: Option<string>)

  /** The `switch (element.type)` of `renderElement`; an unknown type renders nothing. */
  function RendererFor(kind: ElementKind): (r: Option<Renderer>)
    ensures r.None? <==> kind.UnknownType?
  {
    match kind
    case PostItType => Some(PostItView)
    case SondaggioType => Some(SondaggioView)
    case EsercizioType => Some(EsercizioView)
    case LinkType => Some(LinkView)
    case UnknownType(_) => None
  }

  /** Distinct known types are drawn by distinct components. */
  lemma RendererInjective(k1: ElementKind, k2: ElementKind)
    requires RendererFor(k1).Some? && RendererFor(k1) == RendererFor(k2)
    ensures k1 == k2
  {
  }

  /** `renderElement`. */
  function RenderElement(config: Config, isInstructor: bool, nickname: string, e: Element): (r: Option<ElementProps>)
    ensures r.None? <==> e.kind.UnknownType?
    ensures r.Some? ==> Some(r.value.renderer) == RendererFor(e.kind) && r.value.element == e
    ensures r.Some? ==> r.value.canEdit == CanEdit(isInstructor, e, nickname)
    ensures r.Some? ==> r.value.canInteract == CanInteract(isInstructor, config)
    ensures r.Some? ==> r.value.isInstructor == isInstructor
    ensures r.Some? ==> (r.value.nickname.Some? <==> e.kind in {SondaggioType, EsercizioType})
    ensures r.Some? && r.value.nickname.Some? ==> r.value.nickname.value == nickname
  {
    match RendererFor(e.kind)
    case None => None
    case Some(view) =>
      var passesNickname := view == SondaggioView || view == EsercizioView;
      Some(ElementProps(view, e, isInstructor, CanEdit(isInstructor, e, nickname), CanInteract(isInstructor, config),
                        if passesNickname then Some(nickname) else None))
  }

  /** `(board.elements || []).map(renderElement)`: the components on screen, in
      element order, with the unknown types left out. */
  function RenderElements(config: Config, isInstructor: bool, nickname: string, elements: seq<Element>): (r: seq<ElementProps>)
    ensures |r| <= |elements|
    ensures forall k :: 0 <= k < |r| ==> r[k].element in elements && !r[k].element.kind.UnknownType?
    ensures forall k :: 0 <= k < |r| ==> Some(r[k]) == RenderElement(config, isInstructor, nickname, r[k].element)
    ensures (forall k :: 0 <= k < |elements| ==> !elements[k].kind.UnknownType?) ==> |r| == |elements|
  {
    if elements == [] then []
    else
      var rest := RenderElements(config, isInstructor, nickname, elements[1..]);
      assert forall k :: 0 <= k < |rest| ==> rest[k].element in elements;
      match RenderElement(config, isInstructor, nickname, elements[0])
      case None => rest
      case Some(props) => [props] + rest
  }

  /** When every type is known, the k-th component renders the k-th element. */
  lemma {:induction false} AllKnownRenderInOrder(config: Config, isInstructor: bool, nickname: string, elements: seq<Element>)
    requires forall k :: 0 <= k < |elements| ==> !elements[k].kind.UnknownType?
    ensures var r := RenderElements(config, isInstructor, nickname, elements);
      |r| == |elements| && forall k :: 0 <= k < |r| ==> r[k].element == elements[k]
  {
    if elements != [] {
      var tail := elements[1..];
      assert forall k :: 0 <= k < |tail| ==> tail[k] == elements[k + 1];
      AllKnownRenderInOrder(config, isInstructor, nickname, tail);
      var first := RenderElement(config, isInstructor, nickname, elements[0]);
      var rest := RenderElements(config, isInstructor, nickname, tail);
      var r := RenderElements(config, isInstructor, nickname, elements);
      assert r == [first.value] + rest;
      forall k | 1 <= k < |r|
        ensures r[k].element == elements[k]
      {
        assert r[k] == rest[k - 1] && elements[k] == tail[k - 1];
      }
    }
  }

  /** Rendering distributes over concatenation: components appear in element order. */
  lemma {:induction false} RenderElementsKeepOrder(config: Config, isInstructor: bool, nickname: string,
                                                   a: seq<Element>, b: seq<Element>)
    ensures RenderElements(config, isInstructor, nickname, a + b) ==
      RenderElements(config, isInstructor, nickname, a) + RenderElements(config, isInstructor, nickname, b)
  {
    if a == [] {
      assert a + b == b;
    } else {
      assert (a + b)[1..] == a[1..] + b;
      assert (a + b)[0] == a[0];
      RenderElementsKeepOrder(config, isInstructor, nickname, a[1..], b);
      var tail := RenderElements(config, isInstructor, nickname, a[1..]);
      var rb := RenderElements(config, isInstructor, nickname, b);
      match RenderElement(config, isInstructor, nickname, a[0])
      case None =>
      case Some(props) =>
        assert [props] + (tail + rb) == [props] + tail + rb;
    }
  }

  /** On a locked board a participant's answer to an exercise is ignored. */
  lemma LockedBoardIgnoresAnswers(config: Config, ex: Exercise, text: string, nickname: string, timestamp: string)
    requires config.isLocked
    ensures Esercizio.SubmitResponse(ex, text, CanInteract(false, config), false, nickname, timestamp).Ignored?
  {
  }
}
