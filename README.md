# Bacheca: a verified model of the course whiteboard

The whiteboard ("bacheca") of the course platform lets an instructor
("formatore") create boards from a dashboard and open them. The board screen
also has a participant mode, keyed by a nickname, with its own permissions.
Elements are placed on a shared canvas: post-it notes, polls ("sondaggio"),
exercises ("esercizio") and links. The version modelled here
keeps every board in the application's memory. Every handler computes a new
list or record from the old one and hands it up as a shallow `{ ...old, ...updates }`
merge.

The Dafny project has one module per component and three shared modules:

- `Wrappers`: `Option` and `Result`.
- `Text`: `trim`, the truthiness of a trimmed string, a case-insensitive prefix
  test, and substring search.
- `BoardModel`: boards, configurations, elements with a per-type payload,
  participants, and the update records with their shallow merges. A missing key
  is `None`. A present key replaces the field wholesale.
- `Bacheca`: the board screen. Adding an element checks permissions and then
  appends it with default data. It also covers update-by-id, delete-by-id, the
  reset that keeps only the instructor's elements, the configuration merge, and
  the drawing-tool state (class `BoardScreen`).
- `App`: the application shell (class `Application`). It holds the view, the
  role, the open board and the board list, with pure functions for the
  join / create / delete / update / lookup transformations of that list.
- `Dashboard`: the two-click delete confirmation and the title editor (class
  `DashboardState`).
- `Sondaggio`: voting, tallies and rounded percentages, save-time validation,
  and the option editor that keeps between two and eight options (class
  `PollEditor`).
- `Esercizio`: the append-only answer list. A participant gets one answer; the
  instructor may give any number.
- `LinkElement`: URL normalisation, the default title, and the framing check.
- `PostIt`: the trimmed text save, the colour change, the 280-character cap, and
  the colour-scheme fallback.
- `CanvasView`: who may interact and who may edit, the dispatch from element
  type to component, and when the banner and the pan/zoom lock apply.
- `ParticipantToolbar`: when the participant toolbar appears and which buttons
  it offers.

Inputs that come from the browser are parameters:

- the answer to a `confirm` dialog (`confirmed: bool`)
- generated ids and ISO timestamps (`id`, `createdAt`, `now`, `timestamp`)
- the host name the URL parser would extract
- the coordinates a drag ends at

A handler that returns early, or shows an `alert` and returns, yields `None`,
`Err` or a dedicated outcome, meaning no update is sent.

Two behaviours of the code are worth stating outright:

- The poll's total vote count is the number of nickname keys in the vote map,
  not the number of voters with a non-empty selection. A participant who
  toggled their only choice off still counts
  (`Sondaggio.EmptiedSelectionStillCounted`).
- Updates are shallow: saving an element's `data` replaces the whole payload
  (`Bacheca.UpdateElementFields`), with no deep merge of the fields inside it.

## Model

| member | source | states |
|---|---|---|
| Text.Trim | src/App.jsx:44 | the trimmed string has no surrounding whitespace and is no longer than the input; it is empty exactly when the input is blank; an already trimmed string is unchanged |
| Text.TrimCutsBlankEnds | src/App.jsx:44 | the trimmed string is a stretch of the input, and what is cut off before and after it is whitespace |
| Text.TrimIdempotent | src/components/elements/Esercizio.jsx:24-28 | trimming twice is the same as trimming once |
| BoardModel.MergeElement | src/components/Bacheca.jsx:83 | an element's id, type, author and timestamp are kept; position and data are replaced when present in the update and kept when absent |
| BoardModel.MergeBoard | src/App.jsx:104-110 | a board's id and timestamp are kept; each of title, config, elements, participants and drawing is replaced when present in the update and kept when absent |
| BoardModel.MergeElementTwice | src/components/Bacheca.jsx:83 | two successive shallow merges into an element equal one merge of the combined update, the later key winning |
| BoardModel.DragStop | src/components/elements/Esercizio.jsx:11-17 | a position-only update is sent exactly when the component's gate holds: `isInstructor` for exercises and links, `canEdit` for polls and notes |
| Bacheca.CanCreate | src/components/Bacheca.jsx:18-35 | the instructor may add any type and anyone may add an unknown type; on the default flags a participant may add everything but links |
| Bacheca.AuthorFor | src/components/Bacheca.jsx:41 | the author is the instructor sentinel exactly when the adder is the instructor or a participant using that nickname; a participant's author is their nickname |
| Bacheca.DefaultData | src/components/Bacheca.jsx:51-78 | the payload fits the element type; a post-it starts empty and yellow; a poll has two options, single choice and no votes; an exercise has no answers; a link has an empty url; an unknown type gets no content |
| Bacheca.AddElement | src/components/Bacheca.jsx:16-49 | the add is refused exactly when a non-instructor lacks the type's flag; otherwise exactly one element is appended, the old ones are kept in order, and the new one has the given id, type and timestamp, position (100, 100), the right author and the type's default data |
| Bacheca.AddKeepsWellTyped | src/components/Bacheca.jsx:37-48 | adding keeps every element's payload matched to its type |
| Bacheca.InstructorAddAlwaysSucceeds | src/components/Bacheca.jsx:18-41 | the instructor is never refused, and their element's author is the instructor sentinel |
| Bacheca.SentinelNicknameCollides | src/components/Bacheca.jsx:41 | a participant whose nickname is the sentinel produces elements whose author looks like the instructor |
| Bacheca.UpdateElement | src/components/Bacheca.jsx:80-86 | the length is kept; each element whose id matches is merged with the update and every other element is kept as it was |
| Bacheca.UpdateElementFields | src/components/Bacheca.jsx:83 | on a matched element only position and data can change, each replaced wholesale when present in the update; id, type, author and timestamp are kept |
| Bacheca.UpdateAbsentIdIsNoOp | src/components/Bacheca.jsx:80-86 | an update whose id matches no element changes nothing |
| Bacheca.DeleteElement | src/components/Bacheca.jsx:88-92 | the result holds exactly the elements with a different id; deleting an absent id changes nothing |
| Bacheca.DeleteKeepsOrder | src/components/Bacheca.jsx:90 | deletion distributes over concatenation, so the kept elements keep their relative order |
| Bacheca.DeleteIdempotent | src/components/Bacheca.jsx:88-92 | deleting the same id twice is deleting it once |
| Bacheca.InstructorElements | src/components/Bacheca.jsx:103 | the kept elements are exactly those authored by the instructor sentinel; if all are, the list is unchanged |
| Bacheca.InstructorElementsKeepOrder | src/components/Bacheca.jsx:103 | the filter distributes over concatenation, so the kept elements stay in their original order |
| Bacheca.ResetBoard | src/components/Bacheca.jsx:100-106 | an update is sent exactly when the reset is confirmed, and it holds only the instructor's elements |
| Bacheca.ResetIdempotent | src/components/Bacheca.jsx:100-106 | a second confirmed reset changes nothing |
| Bacheca.ResetScenario | src/components/Bacheca.jsx:100-106 | of elements by the instructor, by "Mario" and by the instructor, a reset keeps the two by the instructor, in order |
| Bacheca.UpdateConfig | src/components/Bacheca.jsx:94-98 | each flag present in the update takes its new value; every absent flag keeps its old value |
| Bacheca.UpdateConfigIdempotent | src/components/Bacheca.jsx:96 | applying the same configuration update twice is applying it once |
| Bacheca.MergeDrawingState | src/components/Bacheca.jsx:121 | each tool setting present in the update takes its new value; each absent one keeps its old value |
| Bacheca.BoardScreen.constructor | src/components/Bacheca.jsx:8-14 | the toolbar starts expanded with the pen, black, thickness 8 and drawing mode off |
| Bacheca.BoardScreen.ToggleToolbar | src/components/Bacheca.jsx:160 | the collapse button flips the toolbar state |
| Bacheca.BoardScreen.HandleDrawingStateChange | src/components/Bacheca.jsx:108-122 | a clear request leaves the tool state alone and sends the drawing = null update only when confirmed; any other request is merged into the tool state and sends nothing |
| App.NewBoard | src/App.jsx:66-84 | a new board has the given id and timestamp, the title "Nuova Bacheca", the default flags (post-it, poll and exercise on; drawing and link off; unlocked), no elements, no participants and no drawing |
| App.DemoBoard | src/App.jsx:14-31 | the starting board has id "1", the title "Bacheca Demo", the default flags, no elements, no participants and no drawing |
| App.JoinBoard | src/App.jsx:50-61 | the list length is kept; the participant is appended to the roster of every board with the id, and every other board is unchanged |
| App.JoinTwiceListsTwice | src/App.jsx:54-58 | the same nickname joining twice appears twice on the roster |
| App.JoinUnknownBoard | src/App.jsx:43-61 | joining an id no board has leaves the boards unchanged, and the lookup then finds nothing |
| App.RemoveBoard | src/App.jsx:87-89 | the result holds exactly the boards with a different id |
| App.RemoveBoardKeepsOrder | src/App.jsx:88 | removal distributes over concatenation, so the other boards keep their order |
| App.DeletedBoardIsGone | src/App.jsx:87-89 | after a delete, the lookup finds no board under that id |
| App.UpdateBoards | src/App.jsx:92-111 | the length is kept; boards with another id are unchanged; on a matched board each field present in the update is replaced and the rest are kept |
| App.FindBoard | src/App.jsx:114 | the lookup fails exactly when no board has the id; otherwise it returns the first board with that id |
| App.CreatedBoardIsFound | src/App.jsx:83 | a board appended with an id no other board has is found under that id |
| App.UpdateSeenByLookup | src/App.jsx:105-114 | after an update, the lookup returns the previously found board with the update merged in |
| App.Application.constructor | src/App.jsx:8-31 | the app starts on the login view, not signed in, with no open board and with the demo board alone |
| App.Application.CurrentBoard | src/App.jsx:114 | with no open id there is no current board; with one it is the lookup of that id, so the first board carrying it, or none when no board has it |
| App.Application.Screen | src/App.jsx:116-148 | the login view shows the login, the dashboard view shows the dashboard over the board list, and the board view shows the current board with the current role and nickname, or a blank screen when the id is not found |
| App.Application.HandleLogin | src/App.jsx:34-40 | a non-empty user name and password sign in as instructor and show the dashboard; otherwise nothing changes |
| App.Application.HandleParticipantJoin | src/App.jsx:43-63 | a blank nickname changes nothing; otherwise the board view opens for that id and nickname, the roster is extended by the join function, and an unknown id shows a blank screen |
| App.Application.HandleCreateBoard | src/App.jsx:66-84 | exactly one new board is appended |
| App.Application.HandleDeleteBoard | src/App.jsx:87-89 | the board list becomes the list with that id removed |
| App.Application.HandleUpdateBoard | src/App.jsx:92-111 | the board list becomes the list with the update merged into the matching boards |
| App.Application.UpdateCurrentBoard | src/App.jsx:141 | the board screen's updates go to the open board |
| App.Application.HandleOpenBoard | src/App.jsx:99-102 | the given board is opened in the board view |
| App.Application.Logout | src/App.jsx:129-132 | instructor mode is cleared and the login is shown |
| App.Application.Back | src/App.jsx:142-145 | the open board is cleared and the view becomes the dashboard for the instructor, the login for anyone else |
| Dashboard.DeleteClick | src/components/Dashboard.jsx:31-39 | a click deletes exactly when its board is the armed one, and then deletes that board and disarms; otherwise it re-arms for the clicked board |
| Dashboard.FirstClickOnlyArms | src/components/Dashboard.jsx:35-37 | a click on a board that is not armed arms it and deletes nothing |
| Dashboard.SecondClickDeletes | src/components/Dashboard.jsx:32-34 | a second click on the board just armed deletes it and disarms |
| Dashboard.TitleToSave | src/components/Dashboard.jsx:46-51 | a title is saved exactly when it is not blank, and then trimmed |
| Dashboard.DashboardState.constructor | src/components/Dashboard.jsx:6-8 | nothing is armed and no title is being edited |
| Dashboard.DashboardState.HandleDelete | src/components/Dashboard.jsx:31-39 | the armed board and the requested deletion follow the click transition |
| Dashboard.DashboardState.DeleteTimeout | src/components/Dashboard.jsx:37 | the timer disarms whichever board is armed |
| Dashboard.DashboardState.StartEditTitle | src/components/Dashboard.jsx:41-44 | the editor opens on the board with its current title |
| Dashboard.DashboardState.TypeTitle | src/components/Dashboard.jsx:107 | the draft becomes the typed value |
| Dashboard.DashboardState.SaveTitle | src/components/Dashboard.jsx:46-51 | the editor closes; a title update is sent only for a non-blank draft, and it is trimmed |
| Sondaggio.UserVotes | src/components/elements/Sondaggio.jsx:77 | a voter's choices are the stored ones, or none when the voter has no key |
| Sondaggio.HasUserVoted | src/components/elements/Sondaggio.jsx:112-116 | an option is marked exactly when the viewer is among the voters who chose it |
| Sondaggio.VoteCount | src/components/elements/Sondaggio.jsx:96-99 | no option has more votes than the total, and an option has none exactly when no voter's choices hold it |
| Sondaggio.TotalVotes | src/components/elements/Sondaggio.jsx:101-104 | the total is the number of nickname keys, zero exactly for an empty vote map |
| Sondaggio.WithoutChoice | src/components/elements/Sondaggio.jsx:82 | the result holds exactly the choices other than the given option |
| Sondaggio.ToggleChoice | src/components/elements/Sondaggio.jsx:79-85 | the option's membership flips and every other option's membership is kept |
| Sondaggio.ToggleTwiceRestoresMembership | src/components/elements/Sondaggio.jsx:80-85 | toggling the same option twice restores which options are selected |
| Sondaggio.CastVote | src/components/elements/Sondaggio.jsx:76-89 | the voter becomes a key and other voters are untouched; single choice leaves exactly [i]; multiple choice flips option i and keeps the voter's other options |
| Sondaggio.VotePercentage | src/components/elements/Sondaggio.jsx:106-110 | the percentage lies in 0..100, is 0 with no voters, and otherwise is the nearest integer to count*100/total, half-way rounded up |
| Sondaggio.RoundedPercentage | src/components/elements/Sondaggio.jsx:109 | the nearest-integer bounds for count*100/total, and at most 100 |
| Sondaggio.EmptiedSelectionStillCounted | src/components/elements/Sondaggio.jsx:101-104 | a voter who toggles their only choice off keeps an empty key that is still in the total |
| Sondaggio.ThreeVoterExample | src/components/elements/Sondaggio.jsx:96-110 | with A:[0], B:[0,1] and C:[1], options 0 and 1 each have 2 votes of 3, and option 0 shows 67 |
| Sondaggio.NonBlankOptions | src/components/elements/Sondaggio.jsx:59 | the kept options are exactly the non-blank ones, untrimmed; a list without blanks is kept whole |
| Sondaggio.NonBlankOptionsKeepOrder | src/components/elements/Sondaggio.jsx:59 | the filter distributes over concatenation, so the kept options keep their order and multiplicity |
| Sondaggio.SavePoll | src/components/elements/Sondaggio.jsx:58-71 | a save is accepted exactly when the question is not blank and at least two options are; the saved poll has the trimmed question, exactly the non-blank options in order, the chosen mode, and the stored votes |
| Sondaggio.DefaultPollSaves | src/components/Bacheca.jsx:58-64 | a freshly added poll passes save validation unchanged |
| Sondaggio.AddOption | src/components/elements/Sondaggio.jsx:118-122 | an empty option is appended only while there are fewer than eight |
| Sondaggio.RemoveOption | src/components/elements/Sondaggio.jsx:124-128 | with more than two options, the one at the index is removed and the others keep their order; an out-of-range index or two options leave the list unchanged |
| Sondaggio.OptionCountStaysInRange | src/components/elements/Sondaggio.jsx:118-128 | starting from two to eight options, adding or removing stays within two to eight |
| Sondaggio.UpdateOption | src/components/elements/Sondaggio.jsx:130-134 | only the option at the index changes, and the length is kept |
| Sondaggio.PollEditor.constructor | src/components/elements/Sondaggio.jsx:7-10 | the editor opens in editing mode only for an editor of a poll with an empty or placeholder question, and starts from the poll's data |
| Sondaggio.PollEditor.StartEditing | src/components/elements/Sondaggio.jsx:159 | the edit button enters editing mode |
| Sondaggio.PollEditor.SetQuestion | src/components/elements/Sondaggio.jsx:187 | the question draft becomes the typed value |
| Sondaggio.PollEditor.SetMultipleChoice | src/components/elements/Sondaggio.jsx:233 | the mode becomes the checkbox value |
| Sondaggio.PollEditor.AddOptionField | src/components/elements/Sondaggio.jsx:118-122 | the options follow the add rule |
| Sondaggio.PollEditor.RemoveOptionField | src/components/elements/Sondaggio.jsx:124-128 | the options follow the remove rule |
| Sondaggio.PollEditor.UpdateOptionField | src/components/elements/Sondaggio.jsx:130-134 | the options follow the write-one-option rule |
| Sondaggio.PollEditor.Save | src/components/elements/Sondaggio.jsx:58-71 | the validated poll is sent, and editing ends exactly when the save is accepted |
| Sondaggio.PollEditor.Vote | src/components/elements/Sondaggio.jsx:73-94 | nothing is sent when interaction is not allowed; otherwise the poll goes out with only its votes changed by the vote rule, using the editor's current mode |
| Esercizio.HasUserResponded | src/components/elements/Esercizio.jsx:61-63 | a participant can have responded only when there is some answer, and has responded when they wrote the latest one |
| Esercizio.RespondedAfterAnswer | src/components/elements/Esercizio.jsx:61-63 | after an answer is appended, a nickname has responded exactly when it had before or it wrote that answer |
| Esercizio.SubmitResponse | src/components/elements/Esercizio.jsx:35-59 | a blank answer or a locked-out user is ignored; a participant who already answered gets the alert; otherwise exactly one answer (nickname, trimmed text, timestamp) is appended after the unchanged earlier answers and the question is kept |
| Esercizio.SubmittedMeansResponded | src/components/elements/Esercizio.jsx:61-63 | after a successful submission the author has responded |
| Esercizio.NoSecondAnswer | src/components/elements/Esercizio.jsx:39-43 | a participant who has submitted cannot submit again |
| Esercizio.AnswersBy | src/components/elements/Esercizio.jsx:62 | a participant has zero answers exactly when they have not responded |
| Esercizio.AnswersByAppend | src/components/elements/Esercizio.jsx:54 | appending an answer adds one to its author's count and nothing to anyone else's |
| Esercizio.SubmitKeepsOneAnswerPerParticipant | src/components/elements/Esercizio.jsx:39-56 | participant submissions keep every nickname at one answer or fewer |
| Esercizio.SaveQuestion | src/components/elements/Esercizio.jsx:23-33 | a blank question sends nothing; otherwise the question is trimmed and the answers are kept |
| Esercizio.SaveQuestionIdempotent | src/components/elements/Esercizio.jsx:23-33 | saving the saved question again changes nothing |
| LinkElement.HasHttpScheme | src/components/elements/LinkElement.jsx:46 | an address with a scheme is at least seven characters long and starts with h or H |
| LinkElement.NormaliseUrl | src/components/elements/LinkElement.jsx:45-48 | an address with an http(s) scheme in any case is stored trimmed; any other gets "https://" in front of its trimmed form |
| LinkElement.NormalisedUrlHasScheme | src/components/elements/LinkElement.jsx:45-48 | every stored address has an http(s) scheme and no surrounding whitespace |
| LinkElement.NormaliseUrlIdempotent | src/components/elements/LinkElement.jsx:46 | normalising a stored address changes nothing |
| LinkElement.OtherSchemeIsPrefixed | src/components/elements/LinkElement.jsx:47 | an address not starting with h or H (ftp:, mailto:, www.) always gets the https prefix |
| LinkElement.LinkTitle | src/components/elements/LinkElement.jsx:53 | the title is the trimmed title, or "Link" when blank, and never empty |
| LinkElement.SaveLink | src/components/elements/LinkElement.jsx:42-58 | a blank address sends nothing; otherwise the payload becomes the normalised address and the title |
| LinkElement.IsIframeable | src/components/elements/LinkElement.jsx:64-69 | a host name shorter than every refused domain is always framed |
| LinkElement.RefusedDomainsAreNeverFramed | src/components/elements/LinkElement.jsx:64-69 | a host name containing any refused domain anywhere is never framed |
| LinkElement.FramingExamples | src/components/elements/LinkElement.jsx:64-69 | www.youtube.com and notyoutube.com are refused (the host is matched by substring) and example.org is allowed |
| PostIt.SchemeFor | src/components/elements/PostIt.jsx:18 | a palette colour keeps its own scheme; any other colour falls back to yellow |
| PostIt.PaletteColoursKeepTheirScheme | src/components/elements/PostIt.jsx:5-11 | each of the five palette colours, and the default yellow, maps to its own scheme |
| PostIt.CapText | src/components/elements/PostIt.jsx:93 | the typed text is cut to its first 280 characters; shorter text is kept whole |
| PostIt.CapTextIdempotent | src/components/elements/PostIt.jsx:93 | capping twice is capping once |
| PostIt.SaveText | src/components/elements/PostIt.jsx:32-39 | blank text sends nothing; otherwise the text is trimmed and the colour kept |
| PostIt.SavedTextIsCapped | src/components/elements/PostIt.jsx:93 | text typed in the editor and saved has at most 280 characters |
| PostIt.ChangeColor | src/components/elements/PostIt.jsx:41-45 | the colour changes and the text is kept |
| PostIt.ColorThenTextCommute | src/components/elements/PostIt.jsx:32-45 | changing the colour and saving the text commute |
| PostIt.NoteDragStop | src/components/elements/PostIt.jsx:20-53 | since dragging is enabled only for the instructor, a note is moved exactly when the instructor, who can edit, drags it, and then only its position is sent |
| CanvasView.CanInteract | src/components/CanvasView.jsx:15 | the instructor can always interact, and anyone can exactly when the locked banner is not shown |
| CanvasView.CanEdit | src/components/CanvasView.jsx:37 | the instructor edits everything; a participant edits exactly what they authored |
| CanvasView.AddedElementIsEditable | src/components/CanvasView.jsx:37 | whoever adds an element may then edit it |
| CanvasView.IsPanningDisabled | src/components/CanvasView.jsx:18 | pan and zoom are enabled on the initial tool state |
| CanvasView.PanningFollowsDrawingMode | src/components/CanvasView.jsx:18 | after a tool change, pan and zoom are disabled exactly when the change turned drawing mode on or left it on |
| CanvasView.ShowsLockedBanner | src/components/CanvasView.jsx:85 | the banner is never shown to the instructor, nor on the default flags |
| CanvasView.RendererFor | src/components/CanvasView.jsx:43-54 | an unknown type has no component and each known type has one |
| CanvasView.RendererInjective | src/components/CanvasView.jsx:43-54 | distinct known types are drawn by distinct components |
| CanvasView.RenderElement | src/components/CanvasView.jsx:32-54 | an unknown type renders nothing; a known one gets its component, the element, the role, the edit and interact permissions, and the nickname exactly for polls and exercises |
| CanvasView.RenderElements | src/components/CanvasView.jsx:124 | each rendered component is that element's own rendering, only known types are rendered, and when all types are known every element is |
| CanvasView.AllKnownRenderInOrder | src/components/CanvasView.jsx:124 | when all types are known, the k-th component renders the k-th element |
| CanvasView.RenderElementsKeepOrder | src/components/CanvasView.jsx:124 | rendering distributes over concatenation, so components follow element order |
| CanvasView.LockedBoardIgnoresAnswers | src/components/CanvasView.jsx:15 | on a locked board a participant's answer is ignored |
| ParticipantToolbar.HasAnyPermission | src/components/ParticipantToolbar.jsx:6-10 | without any creation flag a participant may add no known type; the default flags give the toolbar |
| ParticipantToolbar.Offered | src/components/ParticipantToolbar.jsx:24-74 | a type is offered exactly when it is known and a participant may add it |
| ParticipantToolbar.Buttons | src/components/ParticipantToolbar.jsx:6-74 | the toolbar is hidden exactly when the four creation flags are off; otherwise its buttons are exactly the enabled types |
| ParticipantToolbar.DrawingFlagIrrelevant | src/components/ParticipantToolbar.jsx:6-10 | the drawing flag does not change the toolbar |
| ParticipantToolbar.OfferedButtonsAreAllowed | src/components/ParticipantToolbar.jsx:17-19 | a button forwards its type, and the add is never refused |
| ParticipantToolbar.HiddenTypesAreRefused | src/components/ParticipantToolbar.jsx:24-74 | a known type with no button is refused when a participant adds it |
| ParticipantToolbar.ShownToolbar | src/components/Bacheca.jsx:155-175 | the instructor gets the full toolbar; a participant gets the button bar, or none when no creation flag is on |

## Left out

- Realtime synchronisation and remote storage: these files keep every board in
  memory and contain no synchronisation layer.
- The effect hooks that copy incoming props into local state, the local drag
  positions, and the dragging flags. The `responseText` reset after an answer
  and the `isEditing` switches of the link, note and exercise editors are left
  out too. They are view state with nothing to check.
- The drawing canvas, the instructor toolbar's panels, the login form's fixed
  credentials and the join form. They are rendering, clipboard, QR-code,
  download and browser I/O. The `App` model accepts any non-empty credentials,
  as `handleLogin` does.
- `alert` and `confirm` dialogs, `Date.now()` ids, `new Date().toISOString()`
  timestamps, `window.open`, the iframe preview and the zoom/pan library. These
  are browser services: confirmations, ids and timestamps are parameters, and a
  dialog becomes an outcome value.
- LinkElement.FramingExamples: `new URL(url).hostname` is not modelled. The
  framing predicate takes the host name as its input.
- Text.Trim: strips only space, tab, line feed, carriage return, vertical tab,
  form feed and no-break space. It does not strip all Unicode whitespace as
  JavaScript's `trim` does.
- Sondaggio.VotePercentage: exact rational rounding in integers. It does not
  model `Math.round` on a floating-point quotient.
- PostIt.CapText: counts Unicode scalar values. JavaScript's `slice` counts
  UTF-16 code units.
- Sondaggio.UpdateOption: requires an index inside the option list. The editor
  only writes indices of displayed options. An out-of-range write would leave
  holes in a JavaScript array, which a Dafny sequence cannot hold.
- Keys inherited from `Object.prototype`, such as a nickname or colour named
  `constructor`, are not modelled. Vote maps and the colour palette are plain
  maps and sequences.
- BoardModel.MergeElement: element updates carry only the keys the element
  components send, `position` and `data`. A spread could overwrite any other
  key too, but no caller sends one.
- The participant path is unreachable in this version of `App`:
  `handleParticipantJoin` (src/App.jsx:43) is passed to no component, the
  imported `ParticipantJoin` form (src/App.jsx:5) is never rendered, and nothing
  reads the `?board=` link the dashboard copies (src/components/Dashboard.jsx:22).
  The board view is reached only through `handleOpenBoard`, as the instructor.
  The model keeps the join as an event (`App.Application.HandleParticipantJoin`)
  and keeps every participant branch, so these are proved about code that the
  shipped application does not reach.
- Element positions: coordinates are integers. react-draggable reports
  JavaScript numbers, which are fractional under the canvas zoom (initial
  scale 0.2, src/components/CanvasView.jsx:94).
- App.Application.HandleParticipantJoin: the participant's `joinedAt` and
  `lastActive` take the same timestamp `now`. The code reads the clock twice
  (src/App.jsx:56-57), so the two can differ by a tick.
- The `'participant'` view: the application never sets it, and the `App` model
  has no such view.
- The timer itself: the three-second delete timeout is an explicit
  `DeleteTimeout` event. It disarms whatever board is armed when it fires,
  including a board armed by a later click, as the code does.
