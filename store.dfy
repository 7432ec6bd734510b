/** The board tree behind the `POST /boards`, `PATCH /boards/:boardid` and
    `DELETE /boards/:boardid` handlers, over an in-memory relational store.
    A `Db` value is one state of the store; the functions on it specify the three
    handlers, the lemmas state what the handlers promise, and the class `Store`
    performs the handlers step by step as the source does. */
module Store {
  import opened Js

  datatype Status = Open | Closed

  datatype Project = Project(name: string, status: Status)

  datatype Board = Board(
    projectId: int,
    title: string,
    description: string,
    status: Status,
    progress: int,
    addedBy: string,
    addedById: int)

  datatype ListRow = ListRow(boardId: int, name: string, position: int)
  datatype Card = Card(listId: int, title: string, position: int)
  datatype Task = Task(cardId: int, name: string, done: bool)
  datatype Tag = Tag(cardId: int, title: string)
  datatype Comment = Comment(cardId: int, author: string, message: string)

  /** A `boardMember` row; the pair is its key, so a set holds them. */
  datatype Membership = Membership(boardId: int, userId: int)

  /** The tables of the store, keyed by their numeric ids. */
  datatype Db = Db(
    projects: map<int, Project>,
    boards: map<int, Board>,
    lists: map<int, ListRow>,
    cards: map<int, Card>,
    tasks: map<int, Task>,
    tags: map<int, Tag>,
    comments: map<int, Comment>,
    members: set<Membership>)

  /** An HTTP answer: the JSON body, or a status with `{ error }`. */
  datatype Reply<T> = Ok(body: T) | Error(status: int, error: string)

  /** The board row the create and update handlers answer with. */
  datatype BoardRow = BoardRow(
    boardId: int,
    title: string,
    description: string,
    members: set<int>,
    status: Status,
    progress: int,
    addedBy: string,
    addedById: int,
    projectId: int)

  // Foreign keys and positions, as named functions so that the generic row
  // operations below can be given them.
  function ListBoard(l: ListRow): int { l.boardId }
  function ListPosition(l: ListRow): int { l.position }
  function CardList(c: Card): int { c.listId }
  function CardPosition(c: Card): int { c.position }
  function TaskCard(t: Task): int { t.cardId }
  function TagCard(t: Tag): int { t.cardId }
  function CommentCard(c: Comment): int { c.cardId }

  /** The ids of the rows whose foreign key `owner` is one of `parents`
      (`findMany({ where: { fk: parent } })`). */
  function Owned<R>(rows: map<int, R>, owner: R -> int, parents: set<int>): set<int> {
    set k | k in rows && owner(rows[k]) in parents
  }

  /** The rows left after `deleteMany({ where: { fk: p } })` for every p in `gone`. */
  function DropOwned<R>(rows: map<int, R>, owner: R -> int, gone: set<int>): map<int, R> {
    map k | k in rows && owner(rows[k]) !in gone :: rows[k]
  }

  /** The siblings under `parent` have the positions 0 .. count-1, each once. */
  ghost predicate Dense<R>(rows: map<int, R>, owner: R -> int, position: R -> int, parent: int) {
    var siblings := Owned(rows, owner, {parent});
    && (forall k :: k in siblings ==> 0 <= position(rows[k]) < |siblings|)
    && (forall k, k' :: k in siblings && k' in siblings && k != k' ==>
          position(rows[k]) != position(rows[k']))
  }

  /** Every foreign key refers to an existing row. */
  ghost predicate RefsResolve(db: Db) {
    && (forall b :: b in db.boards ==> db.boards[b].projectId in db.projects)
    && (forall l :: l in db.lists ==> db.lists[l].boardId in db.boards)
    && (forall c :: c in db.cards ==> db.cards[c].listId in db.lists)
    && (forall t :: t in db.tasks ==> db.tasks[t].cardId in db.cards)
    && (forall t :: t in db.tags ==> db.tags[t].cardId in db.cards)
    && (forall t :: t in db.comments ==> db.comments[t].cardId in db.cards)
    && MembersResolve(db.members, db.boards)
  }

  /** Every member row refers to an existing board. */
  ghost predicate MembersResolve(members: set<Membership>, boards: map<int, Board>) {
    forall m :: m in members ==> m.boardId in boards
  }

  /** The lists of every board are densely positioned. */
  ghost predicate ListsDense(db: Db) {
    forall b :: b in db.boards ==> Dense(db.lists, ListBoard, ListPosition, b)
  }

  /** The cards of every list are densely positioned. */
  ghost predicate CardsDense(db: Db) {
    forall l :: l in db.lists ==> Dense(db.cards, CardList, CardPosition, l)
  }

  /** The invariant of the store: no orphans, dense positions. */
  ghost predicate Consistent(db: Db) {
    RefsResolve(db) && ListsDense(db) && CardsDense(db)
  }

  /** The user ids of the members of board `b`. */
  function MembersOf(members: set<Membership>, b: int): set<int> {
    set m | m in members && m.boardId == b :: m.userId
  }

  /** The member rows left after `deleteMany({ where: { board_id: b } })`. */
  function MembersExcept(members: set<Membership>, b: int): set<Membership> {
    set m | m in members && m.boardId != b
  }

  /** The distinct ids of a request's `memberIds`. */
  function IdSet(ids: seq<int>): set<int> {
    set u | u in ids
  }

  /** The member rows `createMany` inserts for board `b`, one per distinct id. */
  function MemberRows(b: int, ids: seq<int>): set<Membership> {
    set u | u in ids :: Membership(b, u)
  }

  /** The board row as the handlers shape it (`description || ''` is the stored string). */
  function RowOf(db: Db, b: int): (row: BoardRow)
    requires b in db.boards
    ensures row.boardId == b && row.members == MembersOf(db.members, b)
    ensures var board := db.boards[b];
      && row.title == board.title && row.description == board.description
      && row.status == board.status && row.progress == board.progress
      && row.addedBy == board.addedBy && row.addedById == board.addedById
      && row.projectId == board.projectId
  {
    var board := db.boards[b];
    BoardRow(b, board.title, board.description, MembersOf(db.members, b), board.status,
             board.progress, board.addedBy, board.addedById, board.projectId)
  }

  // ---------------------------------------------------------------------------
  // Generic facts about the row operations

  lemma DropNothing<R>(rows: map<int, R>, owner: R -> int, gone: set<int>)
    requires Owned(rows, owner, gone) == {}
    ensures DropOwned(rows, owner, gone) == rows
  {
    var r := DropOwned(rows, owner, gone);
    forall k | k in rows ensures k in r {
      assert k !in Owned(rows, owner, gone);
    }
  }

  lemma MergeUpdate<K, V>(a: map<K, V>, m: map<K, V>, k: K, v: V)
    ensures a + m[k := v] == (a + m)[k := v]
  {
  }

  lemma DropTwice<R>(rows: map<int, R>, owner: R -> int, a: set<int>, b: set<int>)
    ensures DropOwned(DropOwned(rows, owner, a), owner, b) == DropOwned(rows, owner, a + b)
  {
    var left := DropOwned(DropOwned(rows, owner, a), owner, b);
    var right := DropOwned(rows, owner, a + b);
    assert left.Keys == right.Keys;
  }

  lemma OwnedAfterDrop<R>(rows: map<int, R>, owner: R -> int, gone: set<int>, parents: set<int>)
    requires gone !! parents
    ensures Owned(DropOwned(rows, owner, gone), owner, parents) == Owned(rows, owner, parents)
  {
  }

  lemma OwnedUnion<R>(rows: map<int, R>, owner: R -> int, a: set<int>, b: set<int>)
    ensures Owned(rows, owner, a) + Owned(rows, owner, b) == Owned(rows, owner, a + b)
  {
  }

  /** Deleting the rows of other parents leaves the siblings under `parent` dense. */
  lemma DropKeepsDense<R>(rows: map<int, R>, owner: R -> int, position: R -> int,
                          gone: set<int>, parent: int)
    requires parent !in gone
    requires Dense(rows, owner, position, parent)
    ensures Dense(DropOwned(rows, owner, gone), owner, position, parent)
  {
    OwnedAfterDrop(rows, owner, gone, {parent});
  }

  // ---------------------------------------------------------------------------
  // DELETE /boards/:boardid

  /** The lists of board `b`. */
  function BoardLists(db: Db, b: int): set<int> {
    Owned(db.lists, ListBoard, {b})
  }

  /** The cards on the lists of board `b`. */
  function BoardCards(db: Db, b: int): set<int> {
    Owned(db.cards, CardList, BoardLists(db, b))
  }

  /** The store after `DELETE /boards/b`: the board, its lists, their cards, the cards'
      tasks, tags and comments, and the board's member rows are gone. */
  function DeleteBoardSpec(db: Db, b: int): (r: Db)
    ensures r.projects == db.projects && r.boards.Keys == db.boards.Keys - {b}
  {
    db.(boards := db.boards - {b},
        lists := DropOwned(db.lists, ListBoard, {b}),
        cards := DropOwned(db.cards, CardList, BoardLists(db, b)),
        tasks := DropOwned(db.tasks, TaskCard, BoardCards(db, b)),
        tags := DropOwned(db.tags, TagCard, BoardCards(db, b)),
        comments := DropOwned(db.comments, CommentCard, BoardCards(db, b)),
        members := MembersExcept(db.members, b))
  }

  /** Nothing of the deleted board's subtree is left: not the board, its lists, the
      cards on them, the cards' tasks, tags and comments, nor its member rows. */
  lemma DeleteBoardRemovesSubtree(db: Db, b: int)
    ensures var r := DeleteBoardSpec(db, b);
      && b !in r.boards
      && (forall l :: l in r.lists ==> r.lists[l].boardId != b)
      && (forall c :: c in r.cards ==> r.cards[c].listId !in BoardLists(db, b))
      && (forall t :: t in r.tasks ==> r.tasks[t].cardId !in BoardCards(db, b))
      && (forall t :: t in r.tags ==> r.tags[t].cardId !in BoardCards(db, b))
      && (forall t :: t in r.comments ==> r.comments[t].cardId !in BoardCards(db, b))
      && (forall m :: m in r.members ==> m.boardId != b)
  {
  }

  /** Every row that does not belong to the deleted board's subtree survives as it was. */
  lemma DeleteBoardKeepsOtherRows(db: Db, b: int)
    ensures var r := DeleteBoardSpec(db, b);
      && r.projects == db.projects
      && (forall k :: k in db.boards && k != b ==> k in r.boards && r.boards[k] == db.boards[k])
      && (forall l :: l in db.lists && db.lists[l].boardId != b ==>
            l in r.lists && r.lists[l] == db.lists[l])
      && (forall c :: c in db.cards && db.cards[c].listId !in BoardLists(db, b) ==>
            c in r.cards && r.cards[c] == db.cards[c])
      && (forall t :: t in db.tasks && db.tasks[t].cardId !in BoardCards(db, b) ==>
            t in r.tasks && r.tasks[t] == db.tasks[t])
      && (forall t :: t in db.tags && db.tags[t].cardId !in BoardCards(db, b) ==>
            t in r.tags && r.tags[t] == db.tags[t])
      && (forall t :: t in db.comments && db.comments[t].cardId !in BoardCards(db, b) ==>
            t in r.comments && r.comments[t] == db.comments[t])
      && (forall m :: m in db.members && m.boardId != b ==> m in r.members)
  {
  }

  /** One more list visited by the cascade: the children of its cards join the
      children already deleted, whatever order the lists are visited in. */
  lemma {:induction false} CascadeRows<R>(rows: map<int, R>, owner: R -> int, cards: map<int, Card>,
                                          visited: set<int>, l: int)
    requires l !in visited
    ensures DropOwned(DropOwned(rows, owner, Owned(cards, CardList, visited)), owner,
                      Owned(DropOwned(cards, CardList, visited), CardList, {l}))
            == DropOwned(rows, owner, Owned(cards, CardList, visited + {l}))
  {
    OwnedAfterDrop(cards, CardList, visited, {l});
    OwnedUnion(cards, CardList, visited, {l});
    DropTwice(rows, owner, Owned(cards, CardList, visited), Owned(cards, CardList, {l}));
  }

  /** After the cascade no row refers to a deleted row. */
  lemma DeleteBoardKeepsRefs(db: Db, b: int)
    requires RefsResolve(db)
    ensures RefsResolve(DeleteBoardSpec(db, b))
  {
    var r := DeleteBoardSpec(db, b);
    forall c | c in r.cards ensures r.cards[c].listId in r.lists {
      assert db.cards[c].listId !in BoardLists(db, b);
    }
    forall t | t in r.tasks ensures r.tasks[t].cardId in r.cards {
      assert db.tasks[t].cardId in db.cards;
    }
    forall t | t in r.tags ensures r.tags[t].cardId in r.cards {
      assert db.tags[t].cardId in db.cards;
    }
    forall t | t in r.comments ensures r.comments[t].cardId in r.cards {
      assert db.comments[t].cardId in db.cards;
    }
  }

  /** After the cascade the lists and cards of the remaining boards are still densely
      positioned. */
  lemma DeleteBoardKeepsDense(db: Db, b: int)
    requires ListsDense(db) && CardsDense(db)
    ensures ListsDense(DeleteBoardSpec(db, b)) && CardsDense(DeleteBoardSpec(db, b))
  {
    var r := DeleteBoardSpec(db, b);
    forall p | p in r.boards ensures Dense(r.lists, ListBoard, ListPosition, p) {
      DropKeepsDense(db.lists, ListBoard, ListPosition, {b}, p);
    }
    forall l | l in r.lists ensures Dense(r.cards, CardList, CardPosition, l) {
      DropKeepsDense(db.cards, CardList, CardPosition, BoardLists(db, b), l);
    }
  }

  /** Deleting a board keeps the store consistent: no orphans, dense positions. */
  lemma DeleteBoardKeepsConsistent(db: Db, b: int)
    requires Consistent(db)
    ensures Consistent(DeleteBoardSpec(db, b))
  {
    DeleteBoardKeepsRefs(db, b);
    DeleteBoardKeepsDense(db, b);
  }

  lemma NoMembersOfMissingBoard(db: Db, b: int)
    requires MembersResolve(db.members, db.boards) && b !in db.boards
    ensures MembersExcept(db.members, b) == db.members
  {
  }

  /** Deleting a board that does not exist changes nothing in a consistent store
      (the handler then answers 500). */
  lemma DeleteMissingBoardChangesNothing(db: Db, b: int)
    requires RefsResolve(db)
    requires b !in db.boards
    ensures DeleteBoardSpec(db, b) == db
  {
    forall l | l in db.lists ensures ListBoard(db.lists[l]) != b {
      assert db.lists[l].boardId in db.boards;
    }
    assert BoardLists(db, b) == {};
    assert BoardCards(db, b) == {};
    DropNothing(db.lists, ListBoard, {b});
    DropNothing(db.cards, CardList, {});
    DropNothing(db.tasks, TaskCard, {});
    DropNothing(db.tags, TagCard, {});
    DropNothing(db.comments, CommentCard, {});
    NoMembersOfMissingBoard(db, b);
  }

  // ---------------------------------------------------------------------------
  // POST /boards

  /** The body of `POST /boards`; `None` is a field that is absent. */
  datatype CreateBody = CreateBody(
    projectName: Option<string>,
    fkpoid: Option<int>,
    addedbyid: Option<int>,
    addedby: Option<string>,
    description: Option<string>,
    memberIds: Option<seq<int>>)

  /** Both required fields are truthy; otherwise the handler answers 400. */
  predicate HasRequiredFields(body: CreateBody)
    ensures HasRequiredFields(body) <==>
              body.projectName.Some? && body.projectName.value != "" &&
              body.fkpoid.Some? && body.fkpoid.value != 0
  {
    TruthyString(body.projectName) && TruthyInt(body.fkpoid)
  }

  const DefaultListNames: seq<string> := ["To-do", "In-progress", "Done"]

  /** The project table after the upsert by id: an existing project is kept as it
      is, a missing one is created open with the given name. */
  function UpsertProject(projects: map<int, Project>, id: int, name: string): (r: map<int, Project>)
    ensures r.Keys == projects.Keys + {id}
    ensures forall k :: k in projects ==> r[k] == projects[k]
    ensures id !in projects ==> r[id] == Project(name, Open)
  {
    if id in projects then projects else projects[id := Project(name, Open)]
  }

  /** The board row `POST /boards` inserts: open, no progress, titled after the
      project, with "System" and 0 as the default creator. */
  function NewBoard(body: CreateBody): (board: Board)
    requires HasRequiredFields(body)
    ensures board.projectId == body.fkpoid.value && board.title == body.projectName.value
    ensures board.status == Open && board.progress == 0
    ensures board.description == (if TruthyString(body.description) then body.description.value else "")
    ensures board.addedBy == (if TruthyString(body.addedby) then body.addedby.value else "System")
    ensures board.addedById == (if TruthyInt(body.addedbyid) then body.addedbyid.value else 0)
  {
    Board(body.fkpoid.value, body.projectName.value, StringOr(body.description, ""), Open, 0,
          StringOr(body.addedby, "System"), IntOr(body.addedbyid, 0))
  }

  /** The list rows the seeding loop inserts: `names[i]` at position `i`, under the
      ids `first`, `first + 1`, ... the store hands out. */
  function SeedLists(b: int, first: int, names: seq<string>): (seeded: map<int, ListRow>)
    ensures forall k :: k in seeded ==> seeded[k].boardId == b
  {
    if names == [] then map[]
    else
      var n := |names| - 1;
      SeedLists(b, first, names[..n])[first + n := ListRow(b, names[n], n)]
  }

  /** The seeded rows are `names[i]` at position `i` under the id `first + i`, and
      no other ids. */
  lemma {:induction false} SeedListsRows(b: int, first: int, names: seq<string>)
    ensures forall k :: k in SeedLists(b, first, names) <==> first <= k < first + |names|
    ensures forall k :: k in SeedLists(b, first, names) ==>
              SeedLists(b, first, names)[k] == ListRow(b, names[k - first], k - first)
  {
    if names != [] {
      var n := |names| - 1;
      SeedListsRows(b, first, names[..n]);
      assert forall i :: 0 <= i < n ==> names[..n][i] == names[i];
    }
  }

  /** Seeding one more name adds one row, under the next id. */
  lemma SeedListsStep(b: int, first: int, names: seq<string>, i: int)
    requires 0 <= i < |names|
    ensures SeedLists(b, first, names[..i + 1])
            == SeedLists(b, first, names[..i])[first + i := ListRow(b, names[i], i)]
  {
    assert names[..i + 1][..i] == names[..i];
  }

  /** `createMany` with `skipDuplicates` of the rows (b, id), when `memberIds` is a
      non-empty array. */
  function AttachMembers(members: set<Membership>, b: int, memberIds: Option<seq<int>>): (r: set<Membership>)
    ensures members <= r
    ensures forall m :: m in r && m !in members ==>
              m.boardId == b && memberIds.Some? && m.userId in memberIds.value
  {
    if memberIds.Some? && |memberIds.value| > 0
    then members + MemberRows(b, memberIds.value)
    else members
  }

  /** The store after a successful `POST /boards` that was handed the board id `b`
      and the list ids from `first` on. */
  function CreateBoardSpec(db: Db, b: int, first: int, body: CreateBody): (r: Db)
    requires HasRequiredFields(body)
    ensures b in r.boards && r.boards.Keys == db.boards.Keys + {b}
    ensures r.cards == db.cards && r.tasks == db.tasks && r.tags == db.tags
    ensures r.comments == db.comments
  {
    db.(projects := UpsertProject(db.projects, body.fkpoid.value, body.projectName.value),
        boards := db.boards[b := NewBoard(body)],
        lists := db.lists + SeedLists(b, first, DefaultListNames),
        members := AttachMembers(db.members, b, body.memberIds))
  }

  /** Ids the store has not handed out yet. */
  ghost predicate FreshIds(db: Db, b: int, first: int) {
    && b !in db.boards
    && (forall l :: l in db.lists ==> l < first)
  }

  /** The seeded lists of a new board are its only lists: "To-do", "In-progress" and
      "Done" at positions 0, 1 and 2, so its list positions are dense. */
  lemma SeededLists(lists: map<int, ListRow>, b: int, first: int)
    requires forall l :: l in lists ==> l < first && lists[l].boardId != b
    ensures var all := lists + SeedLists(b, first, DefaultListNames);
      && Owned(all, ListBoard, {b}) == {first, first + 1, first + 2}
      && all[first] == ListRow(b, "To-do", 0)
      && all[first + 1] == ListRow(b, "In-progress", 1)
      && all[first + 2] == ListRow(b, "Done", 2)
      && Dense(all, ListBoard, ListPosition, b)
  {
    var seeds := SeedLists(b, first, DefaultListNames);
    SeedListsRows(b, first, DefaultListNames);
    var all := lists + seeds;
    var ids := {first, first + 1, first + 2};
    forall k | k in all && ListBoard(all[k]) == b ensures k in ids {
      assert k in seeds;
    }
    forall k | k in ids ensures k in all && ListBoard(all[k]) == b {
      assert k in seeds;
    }
    assert Owned(all, ListBoard, {b}) == ids;
    assert |ids| == 3;
    forall k | k in ids ensures ListPosition(all[k]) == k - first {
      assert k in seeds;
    }
  }

  /** Seeding the new board's lists leaves the lists of every other board as they were. */
  lemma SeededListsKeepOtherBoards(lists: map<int, ListRow>, b: int, first: int, p: int)
    requires forall l :: l in lists ==> l < first
    requires p != b
    ensures var all := lists + SeedLists(b, first, DefaultListNames);
      && Owned(all, ListBoard, {p}) == Owned(lists, ListBoard, {p})
      && forall l :: l in lists ==> all[l] == lists[l]
  {
    var seeds := SeedLists(b, first, DefaultListNames);
    SeedListsRows(b, first, DefaultListNames);
    var all := lists + seeds;
    forall k | k in all && ListBoard(all[k]) == p ensures k in lists {
      assert k !in seeds;
    }
    forall k | k in lists ensures all[k] == lists[k] {
      assert k !in seeds;
    }
    assert Owned(all, ListBoard, {p}) == Owned(lists, ListBoard, {p});
  }

  /** The members of a new board are exactly the distinct ids sent. */
  lemma AttachedMembersOfNewBoard(members: set<Membership>, b: int, memberIds: Option<seq<int>>)
    requires forall m :: m in members ==> m.boardId != b
    ensures MembersOf(AttachMembers(members, b, memberIds), b) ==
              if memberIds.Some? then IdSet(memberIds.value) else {}
  {
    var r := AttachMembers(members, b, memberIds);
    if memberIds.Some? {
      forall u | u in memberIds.value ensures u in MembersOf(r, b) {
        assert Membership(b, u) in r;
      }
    }
  }

  /** The new board is open, has no progress, is titled after the project, has the
      three default lists at positions 0, 1 and 2, and exactly the given members; the
      project exists afterwards, unchanged if it existed. */
  lemma CreatedBoardShape(db: Db, b: int, first: int, body: CreateBody)
    requires RefsResolve(db) && FreshIds(db, b, first)
    requires HasRequiredFields(body)
    ensures var r := CreateBoardSpec(db, b, first, body);
      && b in r.boards && r.boards[b] == NewBoard(body)
      && body.fkpoid.value in r.projects
      && (body.fkpoid.value in db.projects ==> r.projects == db.projects)
      && BoardLists(r, b) == {first, first + 1, first + 2}
      && r.lists[first] == ListRow(b, "To-do", 0)
      && r.lists[first + 1] == ListRow(b, "In-progress", 1)
      && r.lists[first + 2] == ListRow(b, "Done", 2)
      && Dense(r.lists, ListBoard, ListPosition, b)
      && MembersOf(r.members, b) ==
           (if body.memberIds.Some? then IdSet(body.memberIds.value) else {})
  {
    SeededLists(db.lists, b, first);
    AttachedMembersOfNewBoard(db.members, b, body.memberIds);
  }

  /** The rows a new board brings refer to existing rows: the board to its project,
      the lists to the board, the member rows to the board. */
  lemma CreateBoardKeepsRefs(db: Db, b: int, first: int, body: CreateBody)
    requires RefsResolve(db) && FreshIds(db, b, first)
    requires HasRequiredFields(body)
    ensures RefsResolve(CreateBoardSpec(db, b, first, body))
  {
    var r := CreateBoardSpec(db, b, first, body);
    var seeds := SeedLists(b, first, DefaultListNames);
    SeedListsRows(b, first, DefaultListNames);
    forall l | l in r.lists ensures r.lists[l].boardId in r.boards {
      if l in seeds {
        assert r.lists[l] == seeds[l];
      } else {
        assert r.lists[l] == db.lists[l];
      }
    }
    forall c | c in r.cards ensures r.cards[c].listId in r.lists {
      assert db.cards[c].listId in db.lists;
    }
  }

  /** A stored sibling set is dense when the rows under that parent are the same rows
      as in a dense table. */
  lemma DenseOfSameSiblings<R>(rows: map<int, R>, rows': map<int, R>, owner: R -> int,
                               position: R -> int, parent: int)
    requires Dense(rows, owner, position, parent)
    requires Owned(rows', owner, {parent}) == Owned(rows, owner, {parent})
    requires forall k :: k in Owned(rows, owner, {parent}) ==> rows'[k] == rows[k]
    ensures Dense(rows', owner, position, parent)
  {
  }

  /** The new board's lists are dense, and no other board's lists change. */
  lemma CreateBoardKeepsListsDense(db: Db, b: int, first: int, body: CreateBody)
    requires RefsResolve(db) && ListsDense(db) && FreshIds(db, b, first)
    requires HasRequiredFields(body)
    ensures ListsDense(CreateBoardSpec(db, b, first, body))
  {
    var r := CreateBoardSpec(db, b, first, body);
    forall l | l in db.lists ensures l < first && db.lists[l].boardId != b {
      assert db.lists[l].boardId in db.boards;
    }
    forall p | p in r.boards ensures Dense(r.lists, ListBoard, ListPosition, p) {
      if p == b {
        SeededLists(db.lists, b, first);
      } else {
        SeededListsKeepOtherBoards(db.lists, b, first, p);
        assert Dense(db.lists, ListBoard, ListPosition, p);
        DenseOfSameSiblings(db.lists, r.lists, ListBoard, ListPosition, p);
      }
    }
  }

  /** The new lists have no cards, and the cards of the old lists do not change. */
  lemma CreateBoardKeepsCardsDense(db: Db, b: int, first: int, body: CreateBody)
    requires RefsResolve(db) && CardsDense(db) && FreshIds(db, b, first)
    requires HasRequiredFields(body)
    ensures CardsDense(CreateBoardSpec(db, b, first, body))
  {
    var r := CreateBoardSpec(db, b, first, body);
    forall l | l in r.lists ensures Dense(r.cards, CardList, CardPosition, l) {
      if l in db.lists {
        assert Dense(db.cards, CardList, CardPosition, l);
      } else {
        forall c | c in r.cards ensures CardList(r.cards[c]) != l {
          assert db.cards[c].listId in db.lists;
        }
        assert Owned(r.cards, CardList, {l}) == {};
      }
    }
  }

  /** Creating a board keeps the store consistent. */
  lemma CreateBoardKeepsConsistent(db: Db, b: int, first: int, body: CreateBody)
    requires Consistent(db) && FreshIds(db, b, first)
    requires HasRequiredFields(body)
    ensures Consistent(CreateBoardSpec(db, b, first, body))
  {
    CreateBoardKeepsRefs(db, b, first, body);
    CreateBoardKeepsListsDense(db, b, first, body);
    CreateBoardKeepsCardsDense(db, b, first, body);
  }

  // ---------------------------------------------------------------------------
  // PATCH /boards/:boardid

  /** The body of `PATCH /boards/:boardid`: `None` is a field that is absent or not
      of the type the handler tests for (string, string, array, number). */
  datatype PatchBody = PatchBody(
    title: Option<string>,
    description: Option<string>,
    memberIds: Option<seq<int>>,
    progress: Option<int>)

  /** Some field of the board row is to be written. */
  predicate HasUpdates(body: PatchBody)
    ensures !HasUpdates(body) ==> forall board :: ApplyPatch(board, body) == board
  {
    body.title.Some? || body.description.Some? || body.progress.Some?
  }

  /** The board row after the partial update: only the fields present change. */
  function ApplyPatch(board: Board, body: PatchBody): (r: Board)
    ensures r.(title := board.title, description := board.description, progress := board.progress) == board
    ensures body.title.Some? ==> r.title == body.title.value
    ensures body.title.None? ==> r.title == board.title
    ensures body.description.Some? ==> r.description == body.description.value
    ensures body.description.None? ==> r.description == board.description
    ensures body.progress.Some? ==> r.progress == body.progress.value
    ensures body.progress.None? ==> r.progress == board.progress
  {
    board.(title := if body.title.Some? then body.title.value else board.title,
           description := if body.description.Some? then body.description.value else board.description,
           progress := if body.progress.Some? then body.progress.value else board.progress)
  }

  /** Membership replacement: delete every row of board `b`, then insert one row per
      distinct id. Rows of other boards are untouched; without an array nothing
      changes. */
  function ReplaceMembers(members: set<Membership>, b: int, memberIds: Option<seq<int>>): (r: set<Membership>)
    ensures memberIds.None? ==> r == members
    ensures memberIds.Some? ==>
              forall m :: m in r ==>
                (m in members && m.boardId != b) || (m.boardId == b && m.userId in memberIds.value)
  {
    if memberIds.None? then members
    else
      var kept := MembersExcept(members, b);
      if |memberIds.value| > 0 then kept + MemberRows(b, memberIds.value) else kept
  }

  /** Replacement leaves the rows of other boards alone and makes the board's members
      exactly the distinct ids sent; without an array nothing changes. */
  lemma ReplaceMembersEffect(members: set<Membership>, b: int, memberIds: Option<seq<int>>)
    ensures var r := ReplaceMembers(members, b, memberIds);
      && (forall m: Membership :: m.boardId != b ==> (m in r <==> m in members))
      && (memberIds.Some? ==> MembersOf(r, b) == IdSet(memberIds.value))
      && (memberIds.None? ==> r == members)
  {
    var r := ReplaceMembers(members, b, memberIds);
    if memberIds.Some? {
      forall u | u in memberIds.value ensures u in MembersOf(r, b) {
        assert Membership(b, u) in r;
      }
    }
  }

  /** The store after a `PATCH` of an existing board. */
  function PatchBoardSpec(db: Db, b: int, body: PatchBody): (r: Db)
    requires b in db.boards
    ensures r.boards.Keys == db.boards.Keys
    ensures r.projects == db.projects && r.lists == db.lists && r.cards == db.cards
    ensures r.tasks == db.tasks && r.tags == db.tags && r.comments == db.comments
  {
    db.(boards := db.boards[b := ApplyPatch(db.boards[b], body)],
        members := ReplaceMembers(db.members, b, body.memberIds))
  }

  /** Sending the same `PATCH` twice has the effect of sending it once. */
  lemma PatchIdempotent(db: Db, b: int, body: PatchBody)
    requires b in db.boards
    ensures PatchBoardSpec(PatchBoardSpec(db, b, body), b, body) == PatchBoardSpec(db, b, body)
  {
    var once := PatchBoardSpec(db, b, body);
    var twice := PatchBoardSpec(once, b, body);
    ReplaceMembersEffect(db.members, b, body.memberIds);
    ReplaceMembersEffect(once.members, b, body.memberIds);
    assert twice.boards[b] == once.boards[b];
    assert twice.boards == once.boards;
    if body.memberIds.Some? {
      forall m | m in twice.members ensures m in once.members {
        if m.boardId == b {
          assert m.userId in MembersOf(twice.members, b);
          assert m.userId in MembersOf(once.members, b);
        }
      }
      forall m | m in once.members ensures m in twice.members {
        if m.boardId == b {
          assert m.userId in MembersOf(once.members, b);
          assert m.userId in MembersOf(twice.members, b);
        }
      }
    }
  }

  /** Membership depends only on the set of ids sent: order and repeats do not matter. */
  lemma ReplaceMembersIgnoresDuplicates(members: set<Membership>, b: int, ids: seq<int>, ids': seq<int>)
    requires IdSet(ids) == IdSet(ids')
    ensures ReplaceMembers(members, b, Some(ids)) == ReplaceMembers(members, b, Some(ids'))
  {
    var r := ReplaceMembers(members, b, Some(ids));
    var r' := ReplaceMembers(members, b, Some(ids'));
    ReplaceMembersEffect(members, b, Some(ids));
    ReplaceMembersEffect(members, b, Some(ids'));
    forall m | m in r ensures m in r' {
      if m.boardId == b {
        assert m.userId in MembersOf(r, b);
        assert m.userId in MembersOf(r', b);
      }
    }
    forall m | m in r' ensures m in r {
      if m.boardId == b {
        assert m.userId in MembersOf(r', b);
        assert m.userId in MembersOf(r, b);
      }
    }
  }

  /** On a board without members, attaching at creation is the same as replacing. */
  lemma AttachIsReplaceOnNewBoard(members: set<Membership>, b: int, memberIds: Option<seq<int>>)
    requires MembersOf(members, b) == {}
    ensures AttachMembers(members, b, memberIds) == ReplaceMembers(members, b, memberIds)
  {
    var kept := MembersExcept(members, b);
    forall m | m in members ensures m.boardId != b {
      assert m.boardId == b ==> m.userId in MembersOf(members, b);
    }
    assert kept == members;
  }

  /** Updating a board keeps the store consistent. */
  lemma PatchBoardKeepsConsistent(db: Db, b: int, body: PatchBody)
    requires Consistent(db) && b in db.boards
    ensures Consistent(PatchBoardSpec(db, b, body))
  {
    var r := PatchBoardSpec(db, b, body);
    ReplaceMembersEffect(db.members, b, body.memberIds);
    assert r.boards.Keys == db.boards.Keys;
    forall m | m in r.members ensures m.boardId in r.boards {
    }
  }

  // ---------------------------------------------------------------------------
  // The store as the handlers change it

  class Store {
    var projects: map<int, Project>
    var boards: map<int, Board>
    var lists: map<int, ListRow>
    var cards: map<int, Card>
    var tasks: map<int, Task>
    var tags: map<int, Tag>
    var comments: map<int, Comment>
    var members: set<Membership>
    /** The next ids the autoincrement columns hand out. */
    var nextBoardId: int
    var nextListId: int

    function Snapshot(): Db
      reads this
    {
      Db(projects, boards, lists, cards, tasks, tags, comments, members)
    }

    /** Every board and list id is below the counter that hands out the next one. */
    ghost predicate IdsBelowCounters()
      reads this
    {
      && (forall b :: b in boards ==> b < nextBoardId)
      && (forall l :: l in lists ==> l < nextListId)
    }

    /** The class invariant: a consistent store and fresh counters. */
    ghost predicate Valid()
      reads this
    {
      Consistent(Snapshot()) && IdsBelowCounters()
    }

    constructor ()
      ensures Valid()
      ensures Snapshot() == Db(map[], map[], map[], map[], map[], map[], map[], {})
    {
      projects, boards, lists, cards := map[], map[], map[], map[];
      tasks, tags, comments, members := map[], map[], map[], {};
      nextBoardId, nextListId := 1, 1;
    }

    /** `POST /boards`: 400 without `projectName` and `fkpoid`; otherwise upsert the
        project, insert the board, seed the default lists, attach the members and
        answer with the new board's row. */
    method CreateBoard(body: CreateBody) returns (reply: Reply<BoardRow>)
      requires Valid()
      modifies this
      ensures Valid()
      ensures !HasRequiredFields(body) ==>
                reply == Error(400, "projectName and fkpoid are required") &&
                Snapshot() == old(Snapshot())
      ensures HasRequiredFields(body) ==>
                && Snapshot() == CreateBoardSpec(old(Snapshot()), old(nextBoardId), old(nextListId), body)
                && old(nextBoardId) in boards
                && reply == Ok(RowOf(Snapshot(), old(nextBoardId)))
    {
      ghost var db, b, first := Snapshot(), nextBoardId, nextListId;
      reply := CreateBoardState(body);
      if HasRequiredFields(body) {
        CreateBoardKeepsConsistent(db, b, first, body);
      }
    }

    /** The create handler as a change of the store's rows and counters. Each handler is
        proved in three layers: `X` keeps `Valid()`, `XState` gives the whole-store
        equality without the invariant in scope, and `XRows` follows the statements
        field by field. Proving all three in one method is too costly for the verifier. */
    method CreateBoardState(body: CreateBody) returns (reply: Reply<BoardRow>)
      requires IdsBelowCounters()
      modifies this`projects, this`boards, this`lists, this`members, this`nextBoardId,
               this`nextListId
      ensures IdsBelowCounters()
      ensures !HasRequiredFields(body) ==>
                reply == Error(400, "projectName and fkpoid are required") &&
                Snapshot() == old(Snapshot())
      ensures HasRequiredFields(body) ==>
                && Snapshot() == CreateBoardSpec(old(Snapshot()), old(nextBoardId), old(nextListId), body)
                && old(nextBoardId) in boards
                && reply == Ok(RowOf(Snapshot(), old(nextBoardId)))
    {
      reply := CreateBoardRows(body);
      if HasRequiredFields(body) {
        SeedListsRows(old(nextBoardId), old(nextListId), DefaultListNames);
      }
    }

    /** The statements of the create handler, in the order the source runs them. */
    method CreateBoardRows(body: CreateBody) returns (reply: Reply<BoardRow>)
      modifies this`projects, this`boards, this`lists, this`members, this`nextBoardId,
               this`nextListId
      ensures !HasRequiredFields(body) ==>
                && reply == Error(400, "projectName and fkpoid are required")
                && projects == old(projects) && boards == old(boards) && lists == old(lists)
                && members == old(members)
                && nextBoardId == old(nextBoardId) && nextListId == old(nextListId)
      ensures HasRequiredFields(body) ==>
                && projects == UpsertProject(old(projects), body.fkpoid.value, body.projectName.value)
                && boards == old(boards)[old(nextBoardId) := NewBoard(body)]
                && lists == old(lists) + SeedLists(old(nextBoardId), old(nextListId), DefaultListNames)
                && members == AttachMembers(old(members), old(nextBoardId), body.memberIds)
                && nextBoardId == old(nextBoardId) + 1
                && nextListId == old(nextListId) + |DefaultListNames|
                && reply == Ok(RowOf(Snapshot(), old(nextBoardId)))
    {
      if !TruthyString(body.projectName) || !TruthyInt(body.fkpoid) {
        return Error(400, "projectName and fkpoid are required");
      }
      var pid, name := body.fkpoid.value, body.projectName.value;
      projects := UpsertProject(projects, pid, name);
      var b := nextBoardId;
      nextBoardId := nextBoardId + 1;
      boards := boards[b := NewBoard(body)];
      SeedDefaultLists(b);
      AddBoardMembers(b, body.memberIds);
      reply := Ok(RowOf(Snapshot(), b));
    }

    /** The member insertion of the create handler: only for a non-empty array. */
    method AddBoardMembers(b: int, memberIds: Option<seq<int>>)
      modifies this`members
      ensures members == AttachMembers(old(members), b, memberIds)
    {
      if memberIds.Some? && |memberIds.value| > 0 {
        members := members + MemberRows(b, memberIds.value);
      }
    }

    /** The seeding loop of `POST /boards`: one list per default name, at position `i`. */
    method SeedDefaultLists(b: int)
      modifies this`lists, this`nextListId
      ensures nextListId == old(nextListId) + |DefaultListNames|
      ensures lists == old(lists) + SeedLists(b, old(nextListId), DefaultListNames)
    {
      var defaults := DefaultListNames;
      for i := 0 to |defaults|
        invariant nextListId == old(nextListId) + i
        invariant lists == old(lists) + SeedLists(b, old(nextListId), defaults[..i])
      {
        SeedListsStep(b, old(nextListId), defaults, i);
        MergeUpdate(old(lists), SeedLists(b, old(nextListId), defaults[..i]),
                    nextListId, ListRow(b, defaults[i], i));
        lists := lists[nextListId := ListRow(b, defaults[i], i)];
        nextListId := nextListId + 1;
      }
      assert defaults[..|defaults|] == defaults;
    }

    /** `PATCH /boards/:boardid`: write the fields present, replace the membership
        when `memberIds` is an array, answer with the board's row; 500 when the board
        does not exist. */
    method PatchBoard(b: int, body: PatchBody) returns (reply: Reply<BoardRow>)
      requires Valid()
      modifies this`boards, this`members
      ensures Valid()
      ensures b !in old(boards) ==>
                reply == Error(500, "failed to update board") && Snapshot() == old(Snapshot())
      ensures b in old(boards) ==>
                && Snapshot() == PatchBoardSpec(old(Snapshot()), b, body)
                && reply == Ok(RowOf(Snapshot(), b))
    {
      ghost var db := Snapshot();
      reply := PatchBoardState(b, body);
      if b in db.boards {
        PatchBoardKeepsConsistent(db, b, body);
      }
    }

    /** The update handler as a change of the store's rows (the middle layer described
        at `CreateBoardState`). */
    method PatchBoardState(b: int, body: PatchBody) returns (reply: Reply<BoardRow>)
      requires MembersResolve(members, boards)
      modifies this`boards, this`members
      ensures boards.Keys == old(boards).Keys
      ensures b !in old(boards) ==>
                reply == Error(500, "failed to update board") && Snapshot() == old(Snapshot())
      ensures b in old(boards) ==>
                && Snapshot() == PatchBoardSpec(old(Snapshot()), b, body)
                && reply == Ok(RowOf(Snapshot(), b))
    {
      reply := PatchBoardRows(b, body);
    }

    /** The statements of the update handler, in the order the source runs them. */
    method PatchBoardRows(b: int, body: PatchBody) returns (reply: Reply<BoardRow>)
      requires MembersResolve(members, boards)
      modifies this`boards, this`members
      ensures b !in old(boards) ==>
                reply == Error(500, "failed to update board") &&
                boards == old(boards) && members == old(members)
      ensures b in old(boards) ==>
                && boards == old(boards)[b := ApplyPatch(old(boards)[b], body)]
                && members == ReplaceMembers(old(members), b, body.memberIds)
                && reply == Ok(RowOf(Snapshot(), b))
    {
      ghost var db := Snapshot();
      if HasUpdates(body) {
        if b !in boards {
          // the row update finds no board and throws
          return Error(500, "failed to update board");
        }
        boards := boards[b := ApplyPatch(boards[b], body)];
      }
      if body.memberIds.Some? {
        var ok := ReplaceBoardMembers(b, body.memberIds.value);
        if !ok {
          // the inserted rows refer to a missing board
          NoMembersOfMissingBoard(db, b);
          return Error(500, "failed to update board");
        }
      }
      if b !in boards {
        // the re-fetch finds nothing and shaping the row throws
        if body.memberIds.Some? {
          NoMembersOfMissingBoard(db, b);
        }
        return Error(500, "failed to update board");
      }
      reply := Ok(RowOf(Snapshot(), b));
    }

    /** The membership replacement of the update handler: delete the board's member
        rows, then insert one per id; the insert fails when the board is missing. */
    method ReplaceBoardMembers(b: int, ids: seq<int>) returns (ok: bool)
      modifies this`members
      ensures ok == (b in boards || |ids| == 0)
      ensures ok ==> members == ReplaceMembers(old(members), b, Some(ids))
      ensures !ok ==> members == MembersExcept(old(members), b)
    {
      members := MembersExcept(members, b);
      if |ids| > 0 {
        if b !in boards {
          return false;
        }
        members := members + MemberRows(b, ids);
      }
      ok := true;
    }

    /** `DELETE /boards/:boardid`: for each list of the board, the tasks, tags and
        comments of each card, then the cards; then the lists, the member rows and the
        board. Answers 500 when the board does not exist. */
    method DeleteBoard(b: int) returns (reply: Reply<int>)
      requires Valid()
      modifies this
      ensures Valid()
      ensures Snapshot() == DeleteBoardSpec(old(Snapshot()), b)
      ensures reply == if b in old(boards) then Ok(b) else Error(500, "failed to delete board")
      ensures nextBoardId == old(nextBoardId) && nextListId == old(nextListId)
    {
      ghost var db := Snapshot();
      reply := DeleteBoardState(b);
      DeleteBoardKeepsConsistent(db, b);
    }

    /** The delete handler as a change of the store's rows (the middle layer described
        at `CreateBoardState`). */
    method DeleteBoardState(b: int) returns (reply: Reply<int>)
      requires IdsBelowCounters()
      modifies this`boards, this`lists, this`cards, this`tasks, this`tags, this`comments,
               this`members
      ensures IdsBelowCounters()
      ensures Snapshot() == DeleteBoardSpec(old(Snapshot()), b)
      ensures reply == if b in old(boards) then Ok(b) else Error(500, "failed to delete board")
    {
      reply := DeleteBoardRows(b);
    }

    /** The statements of the delete handler, in the order the source runs them. */
    method DeleteBoardRows(b: int) returns (reply: Reply<int>)
      modifies this`boards, this`lists, this`cards, this`tasks, this`tags, this`comments,
               this`members
      ensures boards == old(boards) - {b}
      ensures lists == DropOwned(old(lists), ListBoard, {b})
      ensures cards == DropOwned(old(cards), CardList, Owned(old(lists), ListBoard, {b}))
      ensures tasks == DropOwned(old(tasks), TaskCard,
                                 Owned(old(cards), CardList, Owned(old(lists), ListBoard, {b})))
      ensures tags == DropOwned(old(tags), TagCard,
                                Owned(old(cards), CardList, Owned(old(lists), ListBoard, {b})))
      ensures comments == DropOwned(old(comments), CommentCard,
                                    Owned(old(cards), CardList, Owned(old(lists), ListBoard, {b})))
      ensures members == MembersExcept(old(members), b)
      ensures reply == if b in old(boards) then Ok(b) else Error(500, "failed to delete board")
    {
      var boardLists := Owned(lists, ListBoard, {b});
      DeleteCardsOfLists(boardLists);
      lists := DropOwned(lists, ListBoard, {b});
      members := MembersExcept(members, b);
      if b !in boards {
        // the board row to delete is missing and the delete throws
        return Error(500, "failed to delete board");
      }
      boards := boards - {b};
      reply := Ok(b);
    }

    /** The outer cascade loop of `DELETE /boards/:boardid`: the lists `gone` are
        visited one by one, in any order. */
    method DeleteCardsOfLists(gone: set<int>)
      modifies this`cards, this`tasks, this`tags, this`comments
      ensures cards == DropOwned(old(cards), CardList, gone)
      ensures tasks == DropOwned(old(tasks), TaskCard, Owned(old(cards), CardList, gone))
      ensures tags == DropOwned(old(tags), TagCard, Owned(old(cards), CardList, gone))
      ensures comments == DropOwned(old(comments), CommentCard, Owned(old(cards), CardList, gone))
    {
      ghost var c0, t0, g0, m0 := cards, tasks, tags, comments;
      var todo := gone;
      DropNothing(c0, CardList, {});
      DropNothing(t0, TaskCard, {});
      DropNothing(g0, TagCard, {});
      DropNothing(m0, CommentCard, {});
      while exists x :: x in todo
        invariant todo <= gone
        invariant cards == DropOwned(c0, CardList, gone - todo)
        invariant tasks == DropOwned(t0, TaskCard, Owned(c0, CardList, gone - todo))
        invariant tags == DropOwned(g0, TagCard, Owned(c0, CardList, gone - todo))
        invariant comments == DropOwned(m0, CommentCard, Owned(c0, CardList, gone - todo))
        decreases todo
      {
        var l :| l in todo;
        ghost var visited := gone - todo;
        CascadeRows(t0, TaskCard, c0, visited, l);
        CascadeRows(g0, TagCard, c0, visited, l);
        CascadeRows(m0, CommentCard, c0, visited, l);
        DropTwice(c0, CardList, visited, {l});
        DeleteListCards(l);
        assert visited + {l} == gone - (todo - {l});
        todo := todo - {l};
      }
      assert gone - todo == gone;
    }

    /** The body of the outer cascade loop for one list: each card's children, then
        the list's cards. */
    method DeleteListCards(l: int)
      modifies this`cards, this`tasks, this`tags, this`comments
      ensures cards == DropOwned(old(cards), CardList, {l})
      ensures tasks == DropOwned(old(tasks), TaskCard, Owned(old(cards), CardList, {l}))
      ensures tags == DropOwned(old(tags), TagCard, Owned(old(cards), CardList, {l}))
      ensures comments == DropOwned(old(comments), CommentCard, Owned(old(cards), CardList, {l}))
    {
      var listCards := Owned(cards, CardList, {l});
      DeleteChildrenOfCards(listCards);
      cards := DropOwned(cards, CardList, {l});
    }

    /** The body of the inner cascade loop for one card: its tasks, tags and comments. */
    method DeleteCardChildren(c: int)
      modifies this`tasks, this`tags, this`comments
      ensures tasks == DropOwned(old(tasks), TaskCard, {c})
      ensures tags == DropOwned(old(tags), TagCard, {c})
      ensures comments == DropOwned(old(comments), CommentCard, {c})
    {
      tasks := DropOwned(tasks, TaskCard, {c});
      tags := DropOwned(tags, TagCard, {c});
      comments := DropOwned(comments, CommentCard, {c});
    }

    /** The inner cascade loop: the tasks, tags and comments of the cards `gone`,
        card by card. */
    method DeleteChildrenOfCards(gone: set<int>)
      modifies this`tasks, this`tags, this`comments
      ensures tasks == DropOwned(old(tasks), TaskCard, gone)
      ensures tags == DropOwned(old(tags), TagCard, gone)
      ensures comments == DropOwned(old(comments), CommentCard, gone)
    {
      ghost var t0, g0, m0 := tasks, tags, comments;
      var todo := gone;
      DropNothing(t0, TaskCard, {});
      DropNothing(g0, TagCard, {});
      DropNothing(m0, CommentCard, {});
      while exists x :: x in todo
        invariant todo <= gone
        invariant tasks == DropOwned(t0, TaskCard, gone - todo)
        invariant tags == DropOwned(g0, TagCard, gone - todo)
        invariant comments == DropOwned(m0, CommentCard, gone - todo)
        decreases todo
      {
        var c :| c in todo;
        ghost var done := gone - todo;
        DropTwice(t0, TaskCard, done, {c});
        DropTwice(g0, TagCard, done, {c});
        DropTwice(m0, CommentCard, done, {c});
        DeleteCardChildren(c);
        assert done + {c} == gone - (todo - {c});
        todo := todo - {c};
      }
      assert gone - todo == gone;
    }
  }
}
