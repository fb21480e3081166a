/** The sticky-note element: text edits capped at 280 characters and saved
    trimmed, colour changes, and the colour scheme looked up with a yellow
    fallback. */
module PostIt {
  import opened Wrappers
  import opened Text
  import opened BoardModel

  const MaxTextLength: nat := 280

  /** The colour keys of the `COLORS` palette, in their display order. */
  const Palette: seq<string> := ["yellow", "pink", "green", "blue", "orange"]

  const DefaultColor: string := "yellow"

  /** `COLORS[element.data.color] || COLORS.yellow`, identified by the palette
      key whose scheme is used. */
  function SchemeFor(color: string): (r: string)
    ensures r in Palette
    ensures color in Palette ==> r == color
    ensures color !in Palette ==> r == DefaultColor
  {
    if color in Palette then color else DefaultColor
  }

  /** A new note's colour, and every colour the picker offers, has its own scheme. */
  lemma PaletteColoursKeepTheirScheme()
    ensures SchemeFor("yellow") == "yellow"
    ensures forall k :: 0 <= k < |Palette| ==> SchemeFor(Palette[k]) == Palette[k]
  {
  }

  /** The textarea's `value.slice(0, 280)`. */
  function CapText(s: string): (r: string)
    ensures |r| <= MaxTextLength && |r| <= |s|
    ensures r == s[..|r|]
    ensures |s| <= MaxTextLength ==> r == s
    ensures |s| > MaxTextLength ==> |r| == MaxTextLength
  {
    if |s| <= MaxTextLength then s else s[..MaxTextLength]
  }

  /** Capping twice is capping once. */
  lemma CapTextIdempotent(s: string)
    ensures CapText(CapText(s)) == CapText(s)
  {
  }

  /** `handleSave`: no update for blank text; otherwise the note with its text
      trimmed and its colour kept. */
  function SaveText(note: PostItNote, draft: string): (r: Option<PostItNote>)
    ensures r.Some? <==> !IsBlank(draft)
    ensures r.Some? ==> r.value.text == Trim(draft) && r.value.color == note.color
  {
    if Trim(draft) != [] then Some(note.(text := Trim(draft))) else None
  }

  /** Text typed into the editor and then saved is at most 280 characters. */
  lemma SavedTextIsCapped(note: PostItNote, typed: string)
    ensures var r := SaveText(note, CapText(typed));
      r.Some? ==> |r.value.text| <= MaxTextLength
  {
  }

  /** `handleColorChange`: the note with the new colour and its text kept. */
  function ChangeColor(note: PostItNote, color: string): (r: PostItNote)
    ensures r.text == note.text && r.color == color
  {
    note.(color := color)
  }

  /** A colour change followed by a text save keeps both. */
  lemma ColorThenTextCommute(note: PostItNote, color: string, draft: string)
    requires !IsBlank(draft)
    ensures SaveText(ChangeColor(note, color), draft) == Some(ChangeColor(SaveText(note, draft).value, color))
  {
  }

  /** A drag of a note: the note is draggable only for the instructor
      (`disabled={!isInstructor}`), and `handleDragStop` then sends the new
      position only when `canEdit` holds. */
  function NoteDragStop(isInstructor: bool, canEdit: bool, p: Position): (r: Option<ElementUpdate>)
    ensures r.Some? <==> isInstructor && canEdit
    ensures r.Some? ==> r.value.position == Some(p) && r.value.data.None?
  {
    if isInstructor then DragStop(canEdit, p) else None
  }
}
