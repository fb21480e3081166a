/** The participant's side toolbar: shown only when at least one creation
    flag is on, with one add button per enabled element type; and the board
    screen's choice between it and the instructor toolbar. */
module ParticipantToolbar {
  import opened Wrappers
  import opened BoardModel
  import Bacheca

  /** `hasAnyPermission`: one of the four creation flags is on (drawing is not one). */
  function HasAnyPermission(config: Config): (r: bool)
    ensures !r ==> forall kind: ElementKind :: !kind.UnknownType? ==> !Bacheca.CanCreate(kind, false, config)
    ensures config == DefaultConfig ==> r
  {
    config.allowPostIt || config.allowSondaggio || config.allowEsercizio || config.allowLink
  }

  /** The known element type whose `allow*` flag is on. */
  function Offered(kind: ElementKind, config: Config): (r: bool)
    ensures r <==> !kind.UnknownType? && Bacheca.CanCreate(kind, false, config)
  {
    match kind
    case PostItType => config.allowPostIt
    case SondaggioType => config.allowSondaggio
    case EsercizioType => config.allowEsercizio
    case LinkType => config.allowLink
    case UnknownType(_) => false
  }

  /** The toolbar: `None` when it renders nothing, else the add buttons from
      top to bottom. */
  function Buttons(config: Config): (r: Option<seq<ElementKind>>)
    ensures r.None? <==> !HasAnyPermission(config)
    ensures r.Some? ==> r.value != [] && |r.value| <= 4
    ensures r.Some? ==> forall k :: k in r.value <==> Offered(k, config)
  {
    if !HasAnyPermission(config) then None
    else
      var buttons :=
        (if config.allowPostIt then [PostItType] else [])
        + (if config.allowSondaggio then [SondaggioType] else [])
        + (if config.allowEsercizio then [EsercizioType] else [])
        + (if config.allowLink then [LinkType] else []);
      assert forall k :: k in buttons <==> Offered(k, config);
      Some(buttons)
  }

  /** The drawing flag does not change the toolbar. */
  lemma DrawingFlagIrrelevant(config: Config, allowDrawing: bool)
    ensures Buttons(config.(allowDrawing := allowDrawing)) == Buttons(config)
  {
  }

  /** A button click passes its type to the board's add handler unchanged, and
      that add is never refused: every offered type is permitted. */
  lemma OfferedButtonsAreAllowed(config: Config, elements: seq<Element>, nickname: string, kind: ElementKind,
                                 id: string, createdAt: string)
    requires Buttons(config).Some? && kind in Buttons(config).value
    ensures Bacheca.AddElement(elements, config, false, nickname, kind, id, createdAt).Ok?
  {
  }

  /** Conversely, a participant add of a known type that the toolbar does not
      offer is refused. */
  lemma HiddenTypesAreRefused(config: Config, elements: seq<Element>, nickname: string, kind: ElementKind,
                              id: string, createdAt: string)
    requires !kind.UnknownType? && !Offered(kind, config)
    ensures Bacheca.AddElement(elements, config, false, nickname, kind, id, createdAt).Err?
  {
  }

  /** The side toolbar the board screen shows. */
  datatype SideToolbar = InstructorToolbar | ParticipantButtons(kinds: seq<ElementKind>) | NoToolbar

  /** The instructor always gets the full toolbar; a participant gets the
      button bar, or nothing when no creation flag is on. */
  function ShownToolbar(isInstructor: bool, config: Config): (r: SideToolbar)
    ensures r.InstructorToolbar? <==> isInstructor
    ensures r.NoToolbar? <==> !isInstructor && !HasAnyPermission(config)
    ensures r.ParticipantButtons? ==> r.kinds == Buttons(config).value
  {
    if isInstructor then InstructorToolbar
    else match Buttons(config)
      case None => NoToolbar
      case Some(kinds) => ParticipantButtons(kinds)
  }
}
