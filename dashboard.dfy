/** The instructor's dashboard: deleting a board takes two clicks on the same
    board (the first arms a confirmation that a timer later disarms), and a
    board's title is edited in place and saved trimmed. */
module Dashboard {
  import opened Wrappers
  import opened Text
  import opened BoardModel

  /** The outcome of a click on a board's delete button: the new armed board,
      and the board whose deletion is requested, if any. */
  datatype DeleteStep = DeleteStep(armed: Option<string>, deleted: Option<string>)

  /** `handleDelete` as a transition of the armed-board state: a click deletes
      only the board it was made on, and only when that board was the armed
      one; any other click re-arms for the clicked board. */
  function DeleteClick(armed: Option<string>, boardId: string): (step: DeleteStep)
    ensures step.deleted.Some? <==> armed == Some(boardId)
    ensures step.deleted.Some? ==> step.deleted.value == boardId && step.armed.None?
    ensures step.deleted.None? ==> step.armed == Some(boardId)
  {
    if armed == Some(boardId) then DeleteStep(None, Some(boardId)) else DeleteStep(Some(boardId), None)
  }

  /** The first click on a board arms it and deletes nothing. */
  lemma FirstClickOnlyArms(armed: Option<string>, boardId: string)
    requires armed != Some(boardId)
    ensures DeleteClick(armed, boardId) == DeleteStep(Some(boardId), None)
  {
  }

  /** A second click on the armed board deletes that board and disarms. */
  lemma SecondClickDeletes(armed: Option<string>, boardId: string)
    ensures var first := DeleteClick(armed, boardId);
      first.deleted.None? ==> DeleteClick(first.armed, boardId) == DeleteStep(None, Some(boardId))
  {
  }

  /** `saveTitle`: a non-blank title is sent trimmed; a blank one sends nothing. */
  function TitleToSave(editTitle: string): (r: Option<string>)
    ensures r.Some? <==> !IsBlank(editTitle)
    ensures r.Some? ==> r.value == Trim(editTitle) && r.value != [] && IsTrimmed(r.value)
  {
    if Trim(editTitle) != [] then Some(Trim(editTitle)) else None
  }

  /** The dashboard component's local state. */
  class DashboardState {
    var deleteConfirm: Option<string>
    var editingTitle: Option<string>
    var editTitle: string

    constructor ()
      ensures deleteConfirm.None? && editingTitle.None? && editTitle == ""
    {
      deleteConfirm, editingTitle, editTitle := None, None, "";
    }

    /** `handleDelete`: returns the board whose deletion is requested. */
    method HandleDelete(boardId: string) returns (deleted: Option<string>)
      modifies this`deleteConfirm
      ensures DeleteStep(deleteConfirm, deleted) == DeleteClick(old(deleteConfirm), boardId)
    {
      if deleteConfirm == Some(boardId) {
        deleted := Some(boardId);
        deleteConfirm := None;
      } else {
        deleted := None;
        deleteConfirm := Some(boardId);
      }
    }

    /** The three-second timer set by an arming click fires; it disarms
        whichever board is armed at that moment. */
    method DeleteTimeout()
      modifies this`deleteConfirm
      ensures deleteConfirm.None?
    {
      deleteConfirm := None;
    }

    /** `startEditTitle`: open the title editor on this board with its title. */
    method StartEditTitle(board: Board)
      modifies this`editingTitle, this`editTitle
      ensures editingTitle == Some(board.id) && editTitle == board.title
    {
      editingTitle := Some(board.id);
      editTitle := board.title;
    }

    /** Typing in the title field. */
    method TypeTitle(value: string)
      modifies this`editTitle
      ensures editTitle == value
    {
      editTitle := value;
    }

    /** `saveTitle`: returns the title update to send for `boardId`, if any;
        the editor closes either way. */
    method SaveTitle(boardId: string) returns (update: Option<BoardUpdate>)
      modifies this`editingTitle
      ensures editingTitle.None?
      ensures TitleToSave(editTitle).None? ==> update.None?
      ensures TitleToSave(editTitle).Some? ==> update == Some(TitleUpdate(TitleToSave(editTitle).value))
    {
      var title := TitleToSave(editTitle);
      if title.Some? {
        update := Some(TitleUpdate(title.value));
      } else {
        update := None;
      }
      editingTitle := None;
    }
  }
}
