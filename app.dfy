/** The application shell: which screen is shown (login, dashboard, board),
    whether the user is the instructor, which board is open, and the in-memory
    list of boards that every handler replaces with a new list. */
module App {
  import opened Wrappers
  import opened Text
  import opened BoardModel

  datatype View = LoginView | DashboardView | BachecaView

  /** A board as `handleCreateBoard` makes it. */
  function NewBoard(id: string, createdAt: string): (b: Board)
    ensures b.id == id && b.createdAt == createdAt && b.title == "Nuova Bacheca" && b.config == DefaultConfig
    ensures b.elements == [] && b.participants == [] && b.drawingData.None?
  {
    Board(id, "Nuova Bacheca", createdAt, DefaultConfig, [], [], None)
  }

  /** The board the application starts with. */
  function DemoBoard(createdAt: string): (b: Board)
    ensures b.id == "1" && b.title == "Bacheca Demo" && b.createdAt == createdAt && b.config == DefaultConfig
    ensures b.elements == [] && b.participants == [] && b.drawingData.None?
  {
    Board("1", "Bacheca Demo", createdAt, DefaultConfig, [], [], None)
  }

  /** The roster update of `handleParticipantJoin`: `p` is appended to every
      board with the given id; every other board is kept as it is. */
  function JoinBoard(boards: seq<Board>, boardId: string, p: Participant): (r: seq<Board>)
    ensures |r| == |boards|
    ensures forall k :: 0 <= k < |r| && boards[k].id != boardId ==> r[k] == boards[k]
    ensures forall k :: 0 <= k < |r| && boards[k].id == boardId ==>
      r[k] == boards[k].(participants := boards[k].participants + [p])
  {
    if boards == [] then []
    else
      var b := boards[0];
      [if b.id == boardId then b.(participants := b.participants + [p]) else b] + JoinBoard(boards[1..], boardId, p)
  }

  /** Nicknames need not be unique: the same nickname joining twice is on the
      roster twice. */
  lemma JoinTwiceListsTwice(boards: seq<Board>, boardId: string, p: Participant, k: int)
    requires 0 <= k < |boards| && boards[k].id == boardId
    ensures JoinBoard(JoinBoard(boards, boardId, p), boardId, p)[k].participants == boards[k].participants + [p, p]
  {
    assert boards[k].participants + [p] + [p] == boards[k].participants + [p, p];
  }

  /** `handleDeleteBoard`: drop every board with the given id. */
  function RemoveBoard(boards: seq<Board>, boardId: string): (r: seq<Board>)
    ensures |r| <= |boards|
    ensures forall b :: b in r <==> b in boards && b.id != boardId
  {
    if boards == [] then []
    else if boards[0].id == boardId then RemoveBoard(boards[1..], boardId)
    else [boards[0]] + RemoveBoard(boards[1..], boardId)
  }

  /** Removing distributes over concatenation: the other boards keep their order. */
  lemma {:induction false} RemoveBoardKeepsOrder(a: seq<Board>, b: seq<Board>, boardId: string)
    ensures RemoveBoard(a + b, boardId) == RemoveBoard(a, boardId) + RemoveBoard(b, boardId)
  {
    if a == [] {
      assert a + b == b;
    } else {
      assert (a + b)[1..] == a[1..] + b;
      RemoveBoardKeepsOrder(a[1..], b, boardId);
    }
  }

  /** `handleUpdateBoardMeta` / `handleUpdateBoard`: shallow-merge the update
      into every board with the given id. */
  function UpdateBoards(boards: seq<Board>, boardId: string, u: BoardUpdate): (r: seq<Board>)
    ensures |r| == |boards|
    ensures forall k :: 0 <= k < |r| && boards[k].id != boardId ==> r[k] == boards[k]
    ensures forall k :: 0 <= k < |r| && boards[k].id == boardId ==>
      && r[k].id == boards[k].id && r[k].createdAt == boards[k].createdAt
      && r[k].title == u.title.GetOr(boards[k].title)
      && r[k].config == u.config.GetOr(boards[k].config)
      && r[k].elements == u.elements.GetOr(boards[k].elements)
      && r[k].participants == u.participants.GetOr(boards[k].participants)
      && r[k].drawingData == u.drawingData.GetOr(boards[k].drawingData)
  {
    if boards == [] then []
    else
      [if boards[0].id == boardId then MergeBoard(boards[0], u) else boards[0]] + UpdateBoards(boards[1..], boardId, u)
  }

  /** `boards.find(b => b.id === currentBoardId)`: the first board with the id. */
  function FindBoard(boards: seq<Board>, boardId: string): (r: Option<Board>)
    ensures r.None? <==> forall k :: 0 <= k < |boards| ==> boards[k].id != boardId
    ensures r.Some? ==> r.value.id == boardId
    ensures r.Some? ==>
      (exists k :: 0 <= k < |boards| && boards[k] == r.value && (forall j :: 0 <= j < k ==> boards[j].id != boardId))
  {
    if boards == [] then None
    else if boards[0].id == boardId then Some(boards[0])
    else
      var r := FindBoard(boards[1..], boardId);
      assert forall k :: 1 <= k < |boards| ==> boards[k] == boards[1..][k - 1];
      r
  }

  /** A board created with an id no other board has is found under that id. */
  lemma CreatedBoardIsFound(boards: seq<Board>, id: string, createdAt: string)
    requires forall k :: 0 <= k < |boards| ==> boards[k].id != id
    ensures FindBoard(boards + [NewBoard(id, createdAt)], id) == Some(NewBoard(id, createdAt))
  {
    var all := boards + [NewBoard(id, createdAt)];
    var r := FindBoard(all, id);
    assert r.Some? by {
      assert all[|boards|].id == id;
    }
    var k :| 0 <= k < |all| && all[k] == r.value && forall j :: 0 <= j < k ==> all[j].id != id;
    assert k == |boards|;
  }

  /** After a delete no board has that id any more. */
  lemma DeletedBoardIsGone(boards: seq<Board>, id: string)
    ensures FindBoard(RemoveBoard(boards, id), id).None?
  {
    var r := RemoveBoard(boards, id);
    assert forall k :: 0 <= k < |r| ==> r[k] in r;
  }

  /** The open board after an update is the old open board with the update
      merged in: the `currentBoard` lookup sees exactly the merge. */
  lemma {:induction false} UpdateSeenByLookup(boards: seq<Board>, boardId: string, u: BoardUpdate)
    ensures FindBoard(UpdateBoards(boards, boardId, u), boardId) ==
      match FindBoard(boards, boardId)
      case None => None
      case Some(b) => Some(MergeBoard(b, u))
  {
    if boards != [] && boards[0].id != boardId {
      var r := UpdateBoards(boards, boardId, u);
      assert r[1..] == UpdateBoards(boards[1..], boardId, u);
      UpdateSeenByLookup(boards[1..], boardId, u);
    }
  }

  /** Joining a board id that no board has leaves every roster unchanged, and
      the board view then has no board to show. */
  lemma JoinUnknownBoard(boards: seq<Board>, boardId: string, p: Participant)
    requires forall k :: 0 <= k < |boards| ==> boards[k].id != boardId
    ensures JoinBoard(boards, boardId, p) == boards
    ensures FindBoard(JoinBoard(boards, boardId, p), boardId).None?
  {
  }

  /** What the application renders. */
  datatype Screen =
    | LoginScreen
    | DashboardScreen(boards: seq<Board>)
    | BoardScreen(board: Board, isInstructor: bool, nickname: string)
    | BlankScreen  // the board view with no board under the current id

  class Application {
    var currentView: View
    var isInstructor: bool
    var currentBoardId: Option<string>
    var participantNickname: string
    var boards: seq<Board>

    /** The initial state: login view, nobody signed in, the demo board. */
    constructor (createdAt: string)
      ensures currentView == LoginView && !isInstructor && currentBoardId.None? && participantNickname == ""
      ensures boards == [DemoBoard(createdAt)]
    {
      currentView := LoginView;
      isInstructor := false;
      currentBoardId := None;
      participantNickname := "";
      boards := [DemoBoard(createdAt)];
    }

    /** `currentBoard`: the first board whose id is the open one, if any. */
    function CurrentBoard(): (r: Option<Board>)
      reads this
      ensures currentBoardId.None? ==> r.None?
      ensures currentBoardId.Some? ==> r == FindBoard(boards, currentBoardId.value)
    {
      match currentBoardId
      case None => None
      case Some(id) => FindBoard(boards, id)
    }

    /** The screen the render function produces from the state. */
    function Screen(): (s: Screen)
      reads this
      ensures s.BoardScreen? <==> currentView == BachecaView && CurrentBoard().Some?
      ensures s.BoardScreen? ==> s.board == CurrentBoard().value && s.isInstructor == isInstructor
      ensures s.BoardScreen? ==> s.nickname == participantNickname
      ensures s.BlankScreen? <==> currentView == BachecaView && CurrentBoard().None?
      ensures currentView == LoginView ==> s == LoginScreen
      ensures currentView == DashboardView ==> s == DashboardScreen(boards)
    {
      match currentView
      case LoginView => LoginScreen
      case DashboardView => DashboardScreen(boards)
      case BachecaView =>
        match CurrentBoard()
        case Some(b) => BoardScreen(b, isInstructor, participantNickname)
        case None => BlankScreen
    }

    /** `handleLogin`: any non-empty user name and password sign in as the
        instructor and open the dashboard; otherwise nothing changes. */
    method HandleLogin(username: string, password: string)
      modifies this
      ensures username != "" && password != "" ==>
        isInstructor && currentView == DashboardView && Screen() == DashboardScreen(boards)
      ensures !(username != "" && password != "") ==> isInstructor == old(isInstructor) && currentView == old(currentView)
      ensures currentBoardId == old(currentBoardId) && participantNickname == old(participantNickname) && boards == old(boards)
    {
      if username != "" && password != "" {
        isInstructor := true;
        currentView := DashboardView;
      }
    }

    /** `handleParticipantJoin`: a blank nickname changes nothing; otherwise the
        board is opened under the nickname and the nickname is appended to the
        roster of the board with that id. */
    method HandleParticipantJoin(boardId: string, nickname: string, now: string)
      modifies this`currentView, this`currentBoardId, this`participantNickname, this`boards
      ensures IsBlank(nickname) ==>
        currentView == old(currentView) && currentBoardId == old(currentBoardId)
        && participantNickname == old(participantNickname) && boards == old(boards)
      ensures !IsBlank(nickname) ==>
        currentView == BachecaView && currentBoardId == Some(boardId) && participantNickname == nickname
        && boards == JoinBoard(old(boards), boardId, Participant(nickname, now, now))
      ensures !IsBlank(nickname) && FindBoard(old(boards), boardId).None? ==> Screen() == BlankScreen
      ensures isInstructor == old(isInstructor)
    {
      if Trim(nickname) != [] {
        var p := Participant(nickname, now, now);
        var unknown := FindBoard(boards, boardId).None?;
        if unknown {
          JoinUnknownBoard(boards, boardId, p);
        }
        currentBoardId := Some(boardId);
        participantNickname := nickname;
        currentView := BachecaView;
        boards := JoinBoard(boards, boardId, p);
        if unknown {
          assert CurrentBoard().None?;
          assert Screen().BlankScreen?;
        }
      }
    }

    /** `handleCreateBoard`: append one new board. */
    method HandleCreateBoard(id: string, createdAt: string)
      modifies this`boards
      ensures boards == old(boards) + [NewBoard(id, createdAt)]
    {
      boards := boards + [NewBoard(id, createdAt)];
    }

    /** `handleDeleteBoard`. */
    method HandleDeleteBoard(boardId: string)
      modifies this`boards
      ensures boards == RemoveBoard(old(boards), boardId)
    {
      boards := RemoveBoard(boards, boardId);
    }

    /** `handleUpdateBoardMeta` and `handleUpdateBoard` (the same merge). */
    method HandleUpdateBoard(boardId: string, u: BoardUpdate)
      modifies this`boards
      ensures boards == UpdateBoards(old(boards), boardId, u)
    {
      boards := UpdateBoards(boards, boardId, u);
    }

    /** The board screen's `onUpdateBoard`: the update goes to the open board. */
    method UpdateCurrentBoard(u: BoardUpdate)
      modifies this`boards
      ensures currentBoardId.Some? ==> boards == UpdateBoards(old(boards), currentBoardId.value, u)
      ensures currentBoardId.None? ==> boards == old(boards)
    {
      if currentBoardId.Some? {
        boards := UpdateBoards(boards, currentBoardId.value, u);
      }
    }

    /** `handleOpenBoard`. */
    method HandleOpenBoard(boardId: string)
      modifies this`currentBoardId, this`currentView
      ensures currentBoardId == Some(boardId) && currentView == BachecaView
    {
      currentBoardId := Some(boardId);
      currentView := BachecaView;
    }

    /** The dashboard's `onLogout`. */
    method Logout()
      modifies this`isInstructor, this`currentView
      ensures !isInstructor && currentView == LoginView && Screen() == LoginScreen
    {
      isInstructor := false;
      currentView := LoginView;
    }

    /** The board screen's `onBack`: close the board and return to the
        dashboard (instructor) or to the login (anyone else). */
    method Back()
      modifies this`currentBoardId, this`currentView
      ensures currentBoardId.None?
      ensures currentView == if isInstructor then DashboardView else LoginView
      ensures !Screen().BoardScreen? && !Screen().BlankScreen?
    {
      currentBoardId := None;
      currentView := if isInstructor then DashboardView else LoginView;
    }
  }
}
